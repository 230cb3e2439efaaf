/** The RSI divergence detector: a bullish divergence is a second RSI bottom
    that is higher than the lowest bottom of the window while its price is
    lower; a bearish divergence is the mirror on tops. */
module RsiDivergenceDetector {
  import opened Types
  import opened RsiWindow

  /** The detector stays silent unless more RSI values than this exist. */
  const MinRsiCount: nat := 70
  /** Number of (rsi, close, event) points the detector looks back over. */
  const WindowSize: nat := 65

  /** How far, in percent, the second bottom's price must undercut the first
      one's for the price difference alone to be considerable. */
  function PercentageLimit(tf: Timeframe): (r: real)
    ensures 1.0 <= r <= 20.0
    ensures Minutes(tf) < 30 ==> r == 1.0
  {
    match tf
    case ThirtyMinute => 2.0
    case OneHour => 4.0
    case TwoHour => 6.0
    case FourHour => 10.0
    case TwelveHour => 15.0
    case OneDay => 20.0
    case _ => 1.0
  }

  /** A longer timeframe never demands a smaller price gap. */
  lemma PercentageLimitGrowsWithTimeframe(a: Timeframe, b: Timeframe)
    requires Minutes(a) <= Minutes(b)
    ensures PercentageLimit(a) <= PercentageLimit(b)
  {
  }

  /** The last closed candle turned the RSI up from a bottom that followed
      two falling values. */
  predicate FormsSecondBottom(rsi: seq<real>)
    requires |rsi| >= 5
  {
    && rsi[|rsi| - 2] > rsi[|rsi| - 3]
    && rsi[|rsi| - 3] < rsi[|rsi| - 4]
    && rsi[|rsi| - 4] < rsi[|rsi| - 5]
  }

  /** The last closed candle turned the RSI down from a top that followed two
      rising values. */
  predicate FormsLowerHigh(rsi: seq<real>)
    requires |rsi| >= 5
  {
    && rsi[|rsi| - 2] < rsi[|rsi| - 3]
    && rsi[|rsi| - 3] > rsi[|rsi| - 4]
    && rsi[|rsi| - 4] > rsi[|rsi| - 5]
  }

  /** The straight price line through two points, evaluated at event `ev`. */
  function LineThrough(a: Point, b: Point, ev: int): real
    requires a.eventNumber != b.eventNumber
  {
    var gradient := (a.closePrice - b.closePrice) / (a.eventNumber - b.eventNumber) as real;
    var intercept := a.closePrice - gradient * a.eventNumber as real;
    gradient * ev as real + intercept
  }

  /** No point strictly between the first extremum and the entry just before
      the last three closes below the line joining the two bottoms. */
  predicate NoCloseBelowLine(w: seq<Point>, first: nat, second: nat)
    requires first < |w| && second < |w| && w[first].eventNumber != w[second].eventNumber
  {
    forall k :: first < k < |w| - 3 ==> w[k].closePrice >= LineThrough(w[first], w[second], w[k].eventNumber)
  }

  /** Mirror of `NoCloseBelowLine` for tops. */
  predicate NoCloseAboveLine(w: seq<Point>, first: nat, second: nat)
    requires first < |w| && second < |w| && w[first].eventNumber != w[second].eventNumber
  {
    forall k :: first < k < |w| - 3 ==> w[k].closePrice <= LineThrough(w[first], w[second], w[k].eventNumber)
  }

  /** All seven bullish conditions, with the lowest bottom chosen by the
      running-minimum scan and the second bottom three entries from the end. */
  predicate BullishDivergence(w: seq<Point>, rsi: seq<real>, limit: real)
    requires |w| >= 3 && |rsi| >= 5
  {
    var lo := LowestIndex(w);
    var first := w[lo];
    var second := w[|w| - 3];
    && first.rsiValue < 27.0 && second.rsiValue < 37.0
    && second.eventNumber - first.eventNumber > 10
    && second.rsiValue > first.rsiValue
    && second.closePrice < first.closePrice
    && FormsSecondBottom(rsi)
    && NoCloseBelowLine(w, lo, |w| - 3)
    && BottomsDiffer(first, second, limit)
  }

  /** All seven bearish conditions, mirror of `BullishDivergence`. */
  predicate BearishDivergence(w: seq<Point>, rsi: seq<real>, limit: real)
    requires |w| >= 3 && |rsi| >= 5
  {
    var hi := HighestIndex(w);
    var first := w[hi];
    var second := w[|w| - 3];
    && first.rsiValue > 73.0 && second.rsiValue > 63.0
    && second.eventNumber - first.eventNumber > 10
    && first.rsiValue > second.rsiValue
    && second.closePrice > first.closePrice
    && FormsLowerHigh(rsi)
    && NoCloseAboveLine(w, hi, |w| - 3)
    && TopsDiffer(first, second, limit)
  }

  /** The timeframe a divergence should be confirmed on, with the event
      number rescaled to it. */
  function LowerTimeFrame(tf: Timeframe, ev: int): (r: LowerFrame)
    ensures tf in {OneHour, TwoHour, FourHour} ==>
      Minutes(r.timeFrame) < Minutes(tf) && r.eventNumber * Minutes(r.timeFrame) == ev * Minutes(tf)
    ensures tf !in {OneHour, TwoHour, FourHour} ==> r == LowerFrame(FifteenMinute, ev)
  {
    match tf
    case OneHour => LowerFrame(FifteenMinute, ev * 4)
    case TwoHour => LowerFrame(FifteenMinute, ev * 8)
    case FourHour => LowerFrame(OneHour, ev * 4)
    case _ => LowerFrame(FifteenMinute, ev)
  }

  /** The detector's window over the two series. */
  function Window(candles: seq<PriceRecord>, rsi: seq<real>): (w: seq<Point>)
    requires |candles| >= WindowSize && |rsi| >= WindowSize
    ensures |w| == WindowSize
  {
    Unshifted(candles, rsi, WindowSize)
  }

  /** `findOpportunity`: a bullish divergence wins over a bearish one; the
      result describes the second extremum, three entries from the end. */
  function FindOpportunity(symbol: string, tf: Timeframe, candles: seq<PriceRecord>, rsi: seq<real>)
    : (r: Option<AnalyzeResult>)
    requires |rsi| > MinRsiCount ==> |candles| >= WindowSize
    ensures |rsi| <= MinRsiCount ==> r.None?
    ensures r.Some? <==>
      |rsi| > MinRsiCount &&
      (BullishDivergence(Window(candles, rsi), rsi, PercentageLimit(tf)) ||
       BearishDivergence(Window(candles, rsi), rsi, PercentageLimit(tf)))
    ensures r.Some? ==>
      var second := candles[|candles| - 3];
      r.value == AnalyzeResult(symbol, RsiDivergence, r.value.direction, tf, second.eventNumber,
                               Some(rsi[|rsi| - 3]), None, second.close,
                               Some(LowerTimeFrame(tf, second.eventNumber)))
    ensures r.Some? ==> r.value.direction in {Bullish, Bearish}
    ensures r.Some? && r.value.direction == Bearish ==>
      !BullishDivergence(Window(candles, rsi), rsi, PercentageLimit(tf))
  {
    if |rsi| > MinRsiCount then
      var w := Window(candles, rsi);
      var limit := PercentageLimit(tf);
      var second := w[|w| - 3];
      var lower := Some(LowerTimeFrame(tf, second.eventNumber));
      if BullishDivergence(w, rsi, limit) then
        Some(AnalyzeResult(symbol, RsiDivergence, Bullish, tf, second.eventNumber,
                           Some(second.rsiValue), None, second.closePrice, lower))
      else if BearishDivergence(w, rsi, limit) then
        Some(AnalyzeResult(symbol, RsiDivergence, Bearish, tf, second.eventNumber,
                           Some(second.rsiValue), None, second.closePrice, lower))
      else None
    else None
  }

  /** A bullish signal means, in terms of the raw series: the second bottom
      three values from the end is below 37 and was just turned up from, and
      some minimum of the last 65 RSI values lies below 27 and below the
      second bottom, more than 10 events earlier, at a higher close. */
  lemma {:induction false} BullishSignalMeansOversoldDivergence(
    symbol: string, tf: Timeframe, candles: seq<PriceRecord>, rsi: seq<real>)
    requires |rsi| > MinRsiCount ==> |candles| >= WindowSize
    requires FindOpportunity(symbol, tf, candles, rsi).Some?
    requires FindOpportunity(symbol, tf, candles, rsi).value.direction == Bullish
    ensures |rsi| > MinRsiCount && FormsSecondBottom(rsi) && rsi[|rsi| - 3] < 37.0
    ensures exists j ::
      && |rsi| - WindowSize <= j < |rsi|
      && rsi[j] < 27.0 && rsi[j] < rsi[|rsi| - 3]
      && (forall i :: |rsi| - WindowSize <= i < |rsi| ==> rsi[j] <= rsi[i])
      && candles[j + |candles| - |rsi|].close > candles[|candles| - 3].close
      && candles[|candles| - 3].eventNumber - candles[j + |candles| - |rsi|].eventNumber > 10
  {
    var w := Window(candles, rsi);
    var lo := LowestIndex(w);
    var j := |rsi| - WindowSize + lo;
    assert w[lo] == Point(rsi[j], candles[j + |candles| - |rsi|].close, candles[j + |candles| - |rsi|].eventNumber);
    assert w[|w| - 3].rsiValue == rsi[|rsi| - 3];
    forall i | |rsi| - WindowSize <= i < |rsi|
      ensures rsi[j] <= rsi[i]
    {
      assert w[i - (|rsi| - WindowSize)].rsiValue == rsi[i];
    }
  }

  /** Mirror of `BullishSignalMeansOversoldDivergence` for a bearish signal. */
  lemma {:induction false} BearishSignalMeansOverboughtDivergence(
    symbol: string, tf: Timeframe, candles: seq<PriceRecord>, rsi: seq<real>)
    requires |rsi| > MinRsiCount ==> |candles| >= WindowSize
    requires FindOpportunity(symbol, tf, candles, rsi).Some?
    requires FindOpportunity(symbol, tf, candles, rsi).value.direction == Bearish
    ensures |rsi| > MinRsiCount && FormsLowerHigh(rsi) && rsi[|rsi| - 3] > 63.0
    ensures exists j ::
      && |rsi| - WindowSize <= j < |rsi|
      && rsi[j] > 73.0 && rsi[j] > rsi[|rsi| - 3]
      && (forall i :: |rsi| - WindowSize <= i < |rsi| ==> rsi[j] >= rsi[i])
      && candles[j + |candles| - |rsi|].close < candles[|candles| - 3].close
      && candles[|candles| - 3].eventNumber - candles[j + |candles| - |rsi|].eventNumber > 10
  {
    var w := Window(candles, rsi);
    var hi := HighestIndex(w);
    var j := |rsi| - WindowSize + hi;
    assert w[hi] == Point(rsi[j], candles[j + |candles| - |rsi|].close, candles[j + |candles| - |rsi|].eventNumber);
    assert w[|w| - 3].rsiValue == rsi[|rsi| - 3];
    forall i | |rsi| - WindowSize <= i < |rsi|
      ensures rsi[j] >= rsi[i]
    {
      assert w[i - (|rsi| - WindowSize)].rsiValue == rsi[i];
    }
  }

  /** Every candle from `j` up to `idx` is later than event `ev`. */
  predicate LaterThan(candles: seq<PriceRecord>, j: int, idx: int, ev: int)
    requires 0 <= j && idx < |candles|
  {
    forall i :: j <= i <= idx ==> candles[i].eventNumber > ev
  }

  /** The backward scan from `idx` while candles are later than `ev`: true
      when none of the scanned candles closes below `x`. */
  function RunClosesAtLeast(candles: seq<PriceRecord>, idx: int, ev: int, x: real): (r: bool)
    requires idx < |candles|
    requires exists j :: 0 <= j <= idx && candles[j].eventNumber <= ev
    decreases idx
    ensures r <==> forall j :: 0 <= j <= idx && LaterThan(candles, j, idx, ev) ==> candles[j].close >= x
  {
    if candles[idx].eventNumber <= ev then true
    else
      var rest := RunClosesAtLeast(candles, idx - 1, ev, x);
      assert forall j :: 0 <= j < idx && LaterThan(candles, j, idx, ev) ==> LaterThan(candles, j, idx - 1, ev);
      assert forall j :: 0 <= j < idx && LaterThan(candles, j, idx - 1, ev) ==> LaterThan(candles, j, idx, ev);
      candles[idx].close >= x && rest
  }

  /** Mirror of `RunClosesAtLeast`: none of the scanned candles closes above `x`. */
  function RunClosesAtMost(candles: seq<PriceRecord>, idx: int, ev: int, x: real): (r: bool)
    requires idx < |candles|
    requires exists j :: 0 <= j <= idx && candles[j].eventNumber <= ev
    decreases idx
    ensures r <==> forall j :: 0 <= j <= idx && LaterThan(candles, j, idx, ev) ==> candles[j].close <= x
  {
    if candles[idx].eventNumber <= ev then true
    else
      var rest := RunClosesAtMost(candles, idx - 1, ev, x);
      assert forall j :: 0 <= j < idx && LaterThan(candles, j, idx, ev) ==> LaterThan(candles, j, idx - 1, ev);
      assert forall j :: 0 <= j < idx && LaterThan(candles, j, idx - 1, ev) ==> LaterThan(candles, j, idx, ev);
      candles[idx].close <= x && rest
  }

  /** `rsiTripleDivergenceFormed`: whether the current bottom (top) three
      candles from the end extends an earlier divergence `last` into a third
      one. Any direction other than bullish takes the bearish branch. The
      backward scan must meet a candle no later than `last`, or it would read
      before the start of the series. */
  function RsiTripleDivergenceFormed(candles: seq<PriceRecord>, rsi: seq<real>, last: AnalyzeResult): (r: bool)
    requires exists j :: 0 <= j <= |candles| - 4 && candles[j].eventNumber <= last.eventNumber
    ensures |rsi| < 5 || last.rsiValue.None? ==> !r
    ensures |rsi| >= 5 && last.rsiValue.Some? && last.direction == Bullish ==>
      var second := candles[|candles| - 3];
      var p := last.targetPrice;
      (r <==>
        && second.eventNumber - last.eventNumber > 10
        && rsi[|rsi| - 3] > last.rsiValue.value
        && second.close < p
        && FormsSecondBottom(rsi)
        && (forall j :: 0 <= j <= |candles| - 4 && LaterThan(candles, j, |candles| - 4, last.eventNumber) ==>
              candles[j].close >= second.close)
        && (second.close < p - p / 100.0 * PercentageLimit(last.timeFrame)
            || rsi[|rsi| - 3] > last.rsiValue.value + 10.0))
    ensures |rsi| >= 5 && last.rsiValue.Some? && last.direction != Bullish ==>
      var second := candles[|candles| - 3];
      var p := last.targetPrice;
      (r <==>
        && second.eventNumber - last.eventNumber > 10
        && rsi[|rsi| - 3] < last.rsiValue.value
        && second.close > p
        && FormsLowerHigh(rsi)
        && (forall j :: 0 <= j <= |candles| - 4 && LaterThan(candles, j, |candles| - 4, last.eventNumber) ==>
              candles[j].close <= second.close)
        && (second.close > p + p / 100.0 * PercentageLimit(last.timeFrame)
            || rsi[|rsi| - 3] < last.rsiValue.value - 10.0))
  {
    if |rsi| < 5 || last.rsiValue.None? then false
    else
      var limit := PercentageLimit(last.timeFrame);
      var first := Point(last.rsiValue.value, last.targetPrice, last.eventNumber);
      var c := candles[|candles| - 3];
      var second := Point(rsi[|rsi| - 3], c.close, c.eventNumber);
      if last.direction == Bullish then
        && second.eventNumber - first.eventNumber > 10
        && second.rsiValue > first.rsiValue
        && second.closePrice < first.closePrice
        && FormsSecondBottom(rsi)
        && RunClosesAtLeast(candles, |candles| - 4, first.eventNumber, second.closePrice)
        && BottomsDiffer(first, second, limit)
      else
        && second.eventNumber - first.eventNumber > 10
        && first.rsiValue > second.rsiValue
        && second.closePrice > first.closePrice
        && FormsLowerHigh(rsi)
        && RunClosesAtMost(candles, |candles| - 4, first.eventNumber, second.closePrice)
        && TopsDiffer(first, second, limit)
  }

  /** A third divergence found against an earlier one on some timeframe is
      also found against the same divergence recorded on a timeframe no
      longer: a shorter timeframe asks for a smaller price gap. */
  lemma TripleDivergenceHoldsOnShorterTimeframe(
    candles: seq<PriceRecord>, rsi: seq<real>, last: AnalyzeResult, tf: Timeframe)
    requires exists j :: 0 <= j <= |candles| - 4 && candles[j].eventNumber <= last.eventNumber
    requires last.targetPrice >= 0.0 && Minutes(tf) <= Minutes(last.timeFrame)
    requires RsiTripleDivergenceFormed(candles, rsi, last)
    ensures RsiTripleDivergenceFormed(candles, rsi, last.(timeFrame := tf))
  {
    PercentageLimitGrowsWithTimeframe(tf, last.timeFrame);
    var p := last.targetPrice;
    assert p / 100.0 * PercentageLimit(tf) <= p / 100.0 * PercentageLimit(last.timeFrame);
  }
}
