/** Records and enumerations shared by every component of the analyzer:
    price records, indicator outputs, analysis results and paper trades.

    The repository's own enums disagree with each other (two spellings of
    the timeframe enum, a strategy enum that lacks members used elsewhere);
    here there is one timeframe type and one strategy type that holds every
    member any component refers to.
 */
module Types {

  /** A value that may be absent; `None` stands for JavaScript's `undefined`
      (an out-of-range array read, or a field nobody has filled in yet). */
  datatype Option<+T> = None | Some(value: T) {
    function GetOr(default: T): T {
      match this
      case Some(v) => v
      case None => default
    }
  }

  datatype Timeframe =
    | OneMinute | FiveMinute | FifteenMinute | ThirtyMinute
    | OneHour | TwoHour | FourHour | TwelveHour | OneDay

  /** Length of one candle of the timeframe, in minutes. */
  function Minutes(tf: Timeframe): nat {
    match tf
    case OneMinute => 1
    case FiveMinute => 5
    case FifteenMinute => 15
    case ThirtyMinute => 30
    case OneHour => 60
    case TwoHour => 120
    case FourHour => 240
    case TwelveHour => 720
    case OneDay => 1440
  }

  /** The timeframe's string value, as the exchange and the log messages
      spell it. */
  function TimeframeName(tf: Timeframe): (r: string)
    ensures 2 <= |r| <= 3
    ensures r[|r| - 1] in {'m', 'h', 'D'}
  {
    match tf
    case OneMinute => "1m"
    case FiveMinute => "5m"
    case FifteenMinute => "15m"
    case ThirtyMinute => "30m"
    case OneHour => "1h"
    case TwoHour => "2h"
    case FourHour => "4h"
    case TwelveHour => "12h"
    case OneDay => "1D"
  }

  datatype Strategy =
    | Rsi | RsiWithMa | RsiDivergence | BollingerBand | RsiWithBb
    | ContinuousTrend | ExtendedCandle | NotAvailable
    | RsiBullish | BollingerBandBullish | RsiWithMaBullish | RsiBullishDivergence
    | Rsi3Divergence | Rsi3PeriodOverextend | PumpOrDump | SwingHighLow
    | HighestBb | LowestBb | HighestRsi | LowestRsi

  /** Trend direction of a signal. `Unrecognised` stands for any value other
      than the two named ones, which every direction test sends to its
      final `else` branch. */
  datatype Direction = Bullish | Bearish | Unrecognised

  /** Outcome of a closed paper trade. */
  datatype OrderStatus = Success | Failed

  /** One candle of one symbol on one timeframe. */
  datatype PriceRecord = PriceRecord(
    symbol: string,
    open: real,
    close: real,
    high: real,
    low: real,
    eventNumber: int,
    timeFrameEventNumber: int,
    timestamp: int)

  /** One Bollinger band value (the indicator library's output element). */
  datatype Band = Band(upper: real, middle: real, lower: real)

  /** The lower timeframe a divergence should be confirmed on, with the
      event number scaled to that timeframe. */
  datatype LowerFrame = LowerFrame(timeFrame: Timeframe, eventNumber: int)

  /** An opportunity reported by a detector. */
  datatype AnalyzeResult = AnalyzeResult(
    symbol: string,
    strategy: Strategy,
    direction: Direction,
    timeFrame: Timeframe,
    eventNumber: int,
    rsiValue: Option<real>,
    bollingerBandPercentage: Option<real>,
    targetPrice: real,
    lowerFrame: Option<LowerFrame>)

  /** A simulated order, pending-buy or active (pending-sell). Timestamps are
      in milliseconds. */
  datatype PaperTrade = PaperTrade(
    symbol: string,
    amount: real,
    buyPrice: real,
    currentPrice: real,
    stopLoss: real,
    stopProfit: real,
    zeroLossLimit: real,
    isHiddenTrade: bool,
    timeFrame: Timeframe,
    strategy: Strategy,
    timestamp: int)

  datatype BullishCandidate = BullishCandidate(
    priceRecord: PriceRecord,
    strategy: Strategy,
    timeFrame: Timeframe,
    currentRsiValue: real,
    currentBollingerBandPercentageFromBottom: real)

  datatype BearishCandidate = BearishCandidate(
    symbol: string,
    timeFrame: Timeframe,
    lastPriceRecord: PriceRecord)

  /** What the analyzer hands to the paper-trade engine after a session. */
  datatype PaperTradeSource = PaperTradeSource(
    bullishList: seq<BullishCandidate>,
    bearishList: seq<BearishCandidate>)

  /** The value before the last one of an indicator series (the value of the
      last closed candle), `undefined` when the series is shorter than two. */
  function LastClosed(series: seq<real>): (r: Option<real>)
    ensures r.Some? <==> |series| >= 2
    ensures r.Some? ==> r.value == series[|series| - 2]
  {
    if |series| >= 2 then Some(series[|series| - 2]) else None
  }

  /** The market-leading symbol that several components treat specially. */
  const DominantSymbol: string := "BTCUSDT"
}
