/** The price levels of a paper trade: the buy price a little under the
    signal candle's close, the stop-loss and stop-profit prices taken from
    per-strategy and per-timeframe percentage tables, the break-even and
    minimum-profit prices that account for the trading fee, and how long an
    active order may be held. */
module TradeLevels {
  import opened Types

  /** The amount, in USD, spent on every order. */
  const MinTradeAmountUsd: real := 100.0
  const MinProfitPercentage: real := 0.5
  const TradeFeePercentage: real := 0.1
  /** How far under the close, in percent, the buy order is placed. */
  const BuyBuffer: real := 0.125
  /** Pending buy orders older than this many milliseconds expire. */
  const PendingBuyOrderExpireMs: int := 1000 * 60 * 60 * 1

  /** The strategies whose stop-profit uses the first table. */
  predicate PlainBullish(s: Strategy) {
    s == RsiBullish || s == BollingerBandBullish || s == RsiWithMaBullish
  }

  /** `getStopProfit`'s percentage table. */
  function StopProfitPercentage(tf: Timeframe, s: Strategy): (r: real)
    ensures 1.0 <= r <= 15.0
    ensures !PlainBullish(s) && s != RsiBullishDivergence ==> r == 1.0
  {
    if PlainBullish(s) then
      match tf
      case OneHour => 1.0
      case TwoHour => 1.5
      case FourHour => 2.0
      case TwelveHour => 4.0
      case OneDay => 8.0
      case _ => 1.0
    else if s == RsiBullishDivergence then
      match tf
      case OneHour => 2.0
      case TwoHour => 3.0
      case FourHour => 5.0
      case TwelveHour => 10.0
      case OneDay => 15.0
      case _ => 2.0
    else 1.0
  }

  /** `getStopLoss`'s percentage table. */
  function StopLossPercentage(tf: Timeframe, s: Strategy): (r: real)
    ensures 3.0 <= r <= 24.0
    ensures !PlainBullish(s) && s != RsiBullishDivergence ==> r == 5.0
  {
    if PlainBullish(s) || s == RsiBullishDivergence then
      match tf
      case OneHour => 3.0
      case TwoHour => 4.5
      case FourHour => 7.5
      case TwelveHour => 15.0
      case OneDay => 24.0
      case _ => 3.0
    else 5.0
  }

  /** The five timeframes the tables name. */
  predicate Tabled(tf: Timeframe) {
    tf in {OneHour, TwoHour, FourHour, TwelveHour, OneDay}
  }

  /** Among the tabled timeframes, longer candles get wider stops on both
      sides, and a divergence aims at least as high as the other bullish
      strategies. */
  lemma WiderStopsForLongerCandles(a: Timeframe, b: Timeframe, s: Strategy)
    requires Tabled(a) && Tabled(b) && Minutes(a) <= Minutes(b)
    ensures StopProfitPercentage(a, s) <= StopProfitPercentage(b, s)
    ensures StopLossPercentage(a, s) <= StopLossPercentage(b, s)
    ensures StopProfitPercentage(a, RsiBullish) <= StopProfitPercentage(a, RsiBullishDivergence)
  {
  }

  function BuyPrice(close: real): real {
    close / 100.0 * (100.0 - BuyBuffer)
  }

  function StopProfit(buyPrice: real, tf: Timeframe, s: Strategy): real {
    buyPrice / 100.0 * (100.0 + StopProfitPercentage(tf, s) + TradeFeePercentage)
  }

  function StopLoss(buyPrice: real, tf: Timeframe, s: Strategy): real {
    buyPrice / 100.0 * (100.0 - StopLossPercentage(tf, s))
  }

  function MinProfitSellPrice(buyPrice: real): real {
    buyPrice / 100.0 * (100.0 + MinProfitPercentage + TradeFeePercentage)
  }

  function ZeroLossLimit(buyPrice: real): real {
    buyPrice / 100.0 * (100.0 + TradeFeePercentage)
  }

  /** For a positive buy price the levels are strictly ordered:
      stop-loss < buy < break-even < minimum profit < stop-profit. */
  lemma LevelsOrdered(buyPrice: real, tf: Timeframe, s: Strategy)
    requires buyPrice > 0.0
    ensures StopLoss(buyPrice, tf, s) < buyPrice
    ensures buyPrice < ZeroLossLimit(buyPrice)
    ensures ZeroLossLimit(buyPrice) < MinProfitSellPrice(buyPrice)
    ensures MinProfitSellPrice(buyPrice) < StopProfit(buyPrice, tf, s)
  {
    var fee := TradeFeePercentage;
    ScaledOrder(buyPrice, 100.0 - StopLossPercentage(tf, s), 100.0);
    ScaledOrder(buyPrice, 100.0, 100.0 + fee);
    ScaledOrder(buyPrice, 100.0 + fee, 100.0 + MinProfitPercentage + fee);
    ScaledOrder(buyPrice, 100.0 + MinProfitPercentage + fee, 100.0 + StopProfitPercentage(tf, s) + fee);
  }

  /** Percentages of a positive price keep their order; a hundred percent
      of it is the price itself. */
  lemma ScaledOrder(price: real, a: real, b: real)
    requires price > 0.0 && a < b
    ensures price / 100.0 * a < price / 100.0 * b
    ensures price / 100.0 * 100.0 == price
  {
    ScaleKeepsOrder(price / 100.0, a, b);
  }

  lemma ScaleKeepsOrder(unit: real, a: real, b: real)
    requires unit > 0.0 && a < b
    ensures unit * a < unit * b
  {
    assert unit * b - unit * a == unit * (b - a);
  }

  /** The placement's profit check (stop-profit at least the minimum-profit
      price) passes exactly when the buy price is not negative: every table
      entry is above the minimum profit percentage. */
  lemma ProfitGatePassesIffPriceNonNegative(buyPrice: real, tf: Timeframe, s: Strategy)
    ensures StopProfit(buyPrice, tf, s) >= MinProfitSellPrice(buyPrice) <==> buyPrice >= 0.0
  {
    var unit := buyPrice / 100.0;
    var gap := StopProfitPercentage(tf, s) - MinProfitPercentage;
    assert StopProfit(buyPrice, tf, s) - MinProfitSellPrice(buyPrice) == unit * gap;
    assert gap > 0.0;
    if buyPrice < 0.0 {
      assert unit < 0.0;
      assert unit * gap < 0.0;
    }
  }

  /** A positive close gives a positive buy price below the close. */
  lemma BuyPriceBelowClose(close: real)
    requires close > 0.0
    ensures 0.0 < BuyPrice(close) < close
  {
  }

  /** `getOrderExpireLimit`: how long, in milliseconds, an active order is
      held before it is sold regardless of price. */
  function OrderExpireLimit(tf: Timeframe): (r: int)
    ensures 2 * 3600000 <= r <= 10 * 3600000
    ensures r % 3600000 == 0
    ensures !Tabled(tf) ==> r == 2 * 3600000
  {
    var hours :=
      match tf
      case OneHour => 2
      case TwoHour => 3
      case FourHour => 4
      case TwelveHour => 6
      case OneDay => 10
      case _ => 2;
    1000 * 60 * 60 * hours
  }

  /** Longer candles are held longer, and on the tabled timeframes an order
      is held for more than one candle of its timeframe only up to the
      2-hour one. */
  lemma HoldTimeGrowsWithTimeframe(a: Timeframe, b: Timeframe)
    requires Tabled(a) && Tabled(b) && Minutes(a) <= Minutes(b)
    ensures OrderExpireLimit(a) <= OrderExpireLimit(b)
    ensures OrderExpireLimit(a) > Minutes(a) * 60000 <==> Minutes(a) <= 120
  {
  }
}
