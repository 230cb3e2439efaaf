/** The 3-period RSI detectors: a short-window divergence on the 3-period
    RSI, and an "overextended" reading of the last 3-period RSI value on the
    4-hour chart. */
module RsiThreePeriodDetector {
  import opened Types
  import opened RsiWindow

  /** The divergence detector stays silent unless more 3-period RSI values
      than this exist. */
  const MinRsiCount: nat := 55
  /** Number of points the divergence detector looks back over. */
  const WindowSize: nat := 9

  /** The 3-period variant of the price-gap percentage table. */
  function PercentageLimit(tf: Timeframe): (r: real)
    ensures 1.0 <= r <= 10.0
    ensures Minutes(tf) < 30 ==> r == 1.0
  {
    match tf
    case ThirtyMinute => 2.0
    case OneHour => 2.0
    case TwoHour => 3.0
    case FourHour => 4.0
    case TwelveHour => 6.0
    case OneDay => 10.0
    case _ => 1.0
  }

  /** A longer timeframe never demands a smaller price gap. */
  lemma PercentageLimitGrowsWithTimeframe(a: Timeframe, b: Timeframe)
    requires Minutes(a) <= Minutes(b)
    ensures PercentageLimit(a) <= PercentageLimit(b)
  {
  }

  /** The last two closed values keep falling. */
  predicate StillFalling(rsi: seq<real>)
    requires |rsi| >= 4
  {
    rsi[|rsi| - 2] < rsi[|rsi| - 3] && rsi[|rsi| - 3] < rsi[|rsi| - 4]
  }

  /** The last two closed values keep rising. */
  predicate StillRising(rsi: seq<real>)
    requires |rsi| >= 4
  {
    rsi[|rsi| - 2] > rsi[|rsi| - 3] && rsi[|rsi| - 3] > rsi[|rsi| - 4]
  }

  /** The bullish conditions; the trend-line condition of this variant is
      constantly satisfied, so it does not appear. */
  predicate BullishDivergence(w: seq<Point>, rsi: seq<real>, limit: real)
    requires |w| >= 2 && |rsi| >= 4
  {
    var first := w[LowestIndex(w)];
    var second := w[|w| - 2];
    && first.rsiValue < 5.0 && second.rsiValue < 20.0
    && second.eventNumber - first.eventNumber > 2
    && second.rsiValue > first.rsiValue
    && second.closePrice < first.closePrice
    && StillFalling(rsi)
    && BottomsDiffer(first, second, limit)
  }

  /** The bearish conditions, mirror of `BullishDivergence`. */
  predicate BearishDivergence(w: seq<Point>, rsi: seq<real>, limit: real)
    requires |w| >= 2 && |rsi| >= 4
  {
    var first := w[HighestIndex(w)];
    var second := w[|w| - 2];
    && first.rsiValue > 95.0 && second.rsiValue > 80.0
    && second.eventNumber - first.eventNumber > 2
    && first.rsiValue > second.rsiValue
    && second.closePrice > first.closePrice
    && StillRising(rsi)
    && TopsDiffer(first, second, limit)
  }

  /** `findOpportunity` of the 3-period RSI: bullish wins over bearish; the
      result describes the second-to-last candle and carries the last closed
      14-period RSI value. */
  function FindOpportunity(symbol: string, tf: Timeframe, candles: seq<PriceRecord>,
                           rsi3: seq<real>, rsi14: seq<real>): (r: Option<AnalyzeResult>)
    requires |rsi3| > MinRsiCount ==> |candles| >= WindowSize
    ensures |rsi3| <= MinRsiCount ==> r.None?
    ensures r.Some? <==>
      |rsi3| > MinRsiCount &&
      (BullishDivergence(Unshifted(candles, rsi3, WindowSize), rsi3, PercentageLimit(tf)) ||
       BearishDivergence(Unshifted(candles, rsi3, WindowSize), rsi3, PercentageLimit(tf)))
    ensures r.Some? ==>
      var second := candles[|candles| - 2];
      r.value == AnalyzeResult(symbol, Rsi3Divergence, r.value.direction, tf, second.eventNumber,
                               LastClosed(rsi14), None, second.close, None)
    ensures r.Some? ==> r.value.direction in {Bullish, Bearish}
    ensures r.Some? && r.value.direction == Bearish ==>
      !BullishDivergence(Unshifted(candles, rsi3, WindowSize), rsi3, PercentageLimit(tf))
  {
    if |rsi3| > MinRsiCount then
      var w := Unshifted(candles, rsi3, WindowSize);
      var limit := PercentageLimit(tf);
      var second := w[|w| - 2];
      if BullishDivergence(w, rsi3, limit) then
        Some(AnalyzeResult(symbol, Rsi3Divergence, Bullish, tf, second.eventNumber,
                           LastClosed(rsi14), None, second.closePrice, None))
      else if BearishDivergence(w, rsi3, limit) then
        Some(AnalyzeResult(symbol, Rsi3Divergence, Bearish, tf, second.eventNumber,
                           LastClosed(rsi14), None, second.closePrice, None))
      else None
    else None
  }

  /** A bullish 3-period signal means, in terms of the raw series: the
      3-period RSI fell twice in a row to a value below 20, and some minimum
      of the last 9 values lies below 5 and below it, more than 2 events
      earlier, at a higher close. */
  lemma {:induction false} BullishSignalMeansDeepOversold(
    symbol: string, tf: Timeframe, candles: seq<PriceRecord>, rsi3: seq<real>, rsi14: seq<real>)
    requires |rsi3| > MinRsiCount ==> |candles| >= WindowSize
    requires FindOpportunity(symbol, tf, candles, rsi3, rsi14).Some?
    requires FindOpportunity(symbol, tf, candles, rsi3, rsi14).value.direction == Bullish
    ensures |rsi3| > MinRsiCount && StillFalling(rsi3) && rsi3[|rsi3| - 2] < 20.0
    ensures exists j ::
      && |rsi3| - WindowSize <= j < |rsi3|
      && rsi3[j] < 5.0 && rsi3[j] < rsi3[|rsi3| - 2]
      && (forall i :: |rsi3| - WindowSize <= i < |rsi3| ==> rsi3[j] <= rsi3[i])
      && candles[j + |candles| - |rsi3|].close > candles[|candles| - 2].close
      && candles[|candles| - 2].eventNumber - candles[j + |candles| - |rsi3|].eventNumber > 2
  {
    var w := Unshifted(candles, rsi3, WindowSize);
    var lo := LowestIndex(w);
    var j := |rsi3| - WindowSize + lo;
    assert w[lo] == Point(rsi3[j], candles[j + |candles| - |rsi3|].close, candles[j + |candles| - |rsi3|].eventNumber);
    assert w[|w| - 2].rsiValue == rsi3[|rsi3| - 2];
    forall i | |rsi3| - WindowSize <= i < |rsi3|
      ensures rsi3[j] <= rsi3[i]
    {
      assert w[i - (|rsi3| - WindowSize)].rsiValue == rsi3[i];
    }
  }

  /** Mirror of `BullishSignalMeansDeepOversold` for a bearish signal. */
  lemma {:induction false} BearishSignalMeansDeepOverbought(
    symbol: string, tf: Timeframe, candles: seq<PriceRecord>, rsi3: seq<real>, rsi14: seq<real>)
    requires |rsi3| > MinRsiCount ==> |candles| >= WindowSize
    requires FindOpportunity(symbol, tf, candles, rsi3, rsi14).Some?
    requires FindOpportunity(symbol, tf, candles, rsi3, rsi14).value.direction == Bearish
    ensures |rsi3| > MinRsiCount && StillRising(rsi3) && rsi3[|rsi3| - 2] > 80.0
    ensures exists j ::
      && |rsi3| - WindowSize <= j < |rsi3|
      && rsi3[j] > 95.0 && rsi3[j] > rsi3[|rsi3| - 2]
      && (forall i :: |rsi3| - WindowSize <= i < |rsi3| ==> rsi3[j] >= rsi3[i])
      && candles[j + |candles| - |rsi3|].close < candles[|candles| - 2].close
      && candles[|candles| - 2].eventNumber - candles[j + |candles| - |rsi3|].eventNumber > 2
  {
    var w := Unshifted(candles, rsi3, WindowSize);
    var hi := HighestIndex(w);
    var j := |rsi3| - WindowSize + hi;
    assert w[hi] == Point(rsi3[j], candles[j + |candles| - |rsi3|].close, candles[j + |candles| - |rsi3|].eventNumber);
    assert w[|w| - 2].rsiValue == rsi3[|rsi3| - 2];
    forall i | |rsi3| - WindowSize <= i < |rsi3|
      ensures rsi3[j] >= rsi3[i]
    {
      assert w[i - (|rsi3| - WindowSize)].rsiValue == rsi3[i];
    }
  }

  /** `findOversoldOrOverboughtOpportunity`: only on the 4-hour chart, the
      last 3-period RSI value below 2.5 is bullish and above 97.5 bearish.
      The 14-period value is read at the 3-period series' last index, so it
      is absent when that index falls outside the 14-period series. */
  function FindOverextended(symbol: string, tf: Timeframe, candles: seq<PriceRecord>,
                            rsi3: seq<real>, rsi14: seq<real>): (r: Option<AnalyzeResult>)
    requires tf == FourHour ==> |candles| >= 1
    ensures r.Some? <==> tf == FourHour && |rsi3| >= 1 && (rsi3[|rsi3| - 1] < 2.5 || rsi3[|rsi3| - 1] > 97.5)
    ensures r.Some? ==>
      && r.value.strategy == Rsi3PeriodOverextend
      && r.value.symbol == symbol && r.value.timeFrame == FourHour
      && r.value.eventNumber == candles[|candles| - 1].eventNumber
      && r.value.targetPrice == candles[|candles| - 1].close
      && r.value.bollingerBandPercentage.None? && r.value.lowerFrame.None?
      && (r.value.direction == Bullish <==> rsi3[|rsi3| - 1] < 2.5)
      && (r.value.direction == Bearish <==> rsi3[|rsi3| - 1] > 97.5)
      && (r.value.rsiValue.Some? <==> |rsi3| <= |rsi14|)
      && (r.value.rsiValue.Some? ==> r.value.rsiValue.value == rsi14[|rsi3| - 1])
  {
    if tf == FourHour && |rsi3| >= 1 then
      var last := rsi3[|rsi3| - 1];
      var rsi14Value := if |rsi3| <= |rsi14| then Some(rsi14[|rsi3| - 1]) else None;
      var candle := candles[|candles| - 1];
      if last < 2.5 then
        Some(AnalyzeResult(symbol, Rsi3PeriodOverextend, Bullish, tf, candle.eventNumber,
                           rsi14Value, None, candle.close, None))
      else if last > 97.5 then
        Some(AnalyzeResult(symbol, Rsi3PeriodOverextend, Bearish, tf, candle.eventNumber,
                           rsi14Value, None, candle.close, None))
      else None
    else None
  }
}
