/** The swing confirmation: after the lowest low (highest high) of the last
    nineteen candles, some candle must have taken out the previous candle's
    high (low). */
module SwingDetector {
  import opened Types

  /** The check stays negative unless more candles than this exist. */
  const MinCandleCount: nat := 25
  /** Number of newest candles the extremum scan looks at. */
  const ScanLength: nat := 19

  /** The downward scan for the lowest low, from `index` to the first scanned
      candle; a strictly lower low replaces `best`, so among equal lows the
      newest one is kept. */
  function LowScan(c: seq<PriceRecord>, index: int, best: nat): (r: nat)
    requires |c| > MinCandleCount
    requires |c| - ScanLength - 1 <= index < |c|
    requires |c| - ScanLength <= best < |c|
    decreases index
    ensures |c| - ScanLength <= r < |c|
  {
    if index < |c| - ScanLength then best
    else LowScan(c, index - 1, if c[index].low < c[best].low then index else best)
  }

  /** The low scan ends on a low no higher than any scanned one, and it
      moves off `best` only to a strictly lower low with no candle after it,
      up to `index`, as low. */
  lemma {:induction false} LowScanFinds(c: seq<PriceRecord>, index: int, best: nat)
    requires |c| > MinCandleCount
    requires |c| - ScanLength - 1 <= index < |c|
    requires |c| - ScanLength <= best < |c|
    decreases index
    ensures var r := LowScan(c, index, best);
      && c[r].low <= c[best].low
      && (forall j :: |c| - ScanLength <= j <= index ==> c[r].low <= c[j].low)
      && (r == best || (r <= index && c[r].low < c[best].low &&
                        forall j :: r < j <= index ==> c[j].low > c[r].low))
  {
    if index >= |c| - ScanLength {
      LowScanFinds(c, index - 1, if c[index].low < c[best].low then index else best);
    }
  }

  /** Mirror of `LowScan` for the highest high. */
  function HighScan(c: seq<PriceRecord>, index: int, best: nat): (r: nat)
    requires |c| > MinCandleCount
    requires |c| - ScanLength - 1 <= index < |c|
    requires |c| - ScanLength <= best < |c|
    decreases index
    ensures |c| - ScanLength <= r < |c|
  {
    if index < |c| - ScanLength then best
    else HighScan(c, index - 1, if c[index].high > c[best].high then index else best)
  }

  /** Mirror of `LowScanFinds` for the highest high. */
  lemma {:induction false} HighScanFinds(c: seq<PriceRecord>, index: int, best: nat)
    requires |c| > MinCandleCount
    requires |c| - ScanLength - 1 <= index < |c|
    requires |c| - ScanLength <= best < |c|
    decreases index
    ensures var r := HighScan(c, index, best);
      && c[r].high >= c[best].high
      && (forall j :: |c| - ScanLength <= j <= index ==> c[r].high >= c[j].high)
      && (r == best || (r <= index && c[r].high > c[best].high &&
                        forall j :: r < j <= index ==> c[j].high < c[r].high))
  {
    if index >= |c| - ScanLength {
      HighScanFinds(c, index - 1, if c[index].high > c[best].high then index else best);
    }
  }

  /** The newest candle with the lowest low among the last nineteen. */
  function LatestLowestLow(c: seq<PriceRecord>): (r: nat)
    requires |c| > MinCandleCount
    ensures |c| - ScanLength <= r < |c|
    ensures forall j :: |c| - ScanLength <= j < |c| ==> c[r].low <= c[j].low
    ensures forall j :: r < j < |c| ==> c[j].low > c[r].low
  {
    ScanFromNewestFindsLow(c);
    LowScan(c, |c| - 1, |c| - 1)
  }

  /** The scan started at the newest candle covers all nineteen. */
  lemma ScanFromNewestFindsLow(c: seq<PriceRecord>)
    requires |c| > MinCandleCount
    ensures var r := LowScan(c, |c| - 1, |c| - 1);
      && (forall j :: |c| - ScanLength <= j < |c| ==> c[r].low <= c[j].low)
      && (forall j :: r < j < |c| ==> c[j].low > c[r].low)
  {
    LowScanFinds(c, |c| - 1, |c| - 1);
  }

  /** The newest candle with the highest high among the last nineteen. */
  function LatestHighestHigh(c: seq<PriceRecord>): (r: nat)
    requires |c| > MinCandleCount
    ensures |c| - ScanLength <= r < |c|
    ensures forall j :: |c| - ScanLength <= j < |c| ==> c[r].high >= c[j].high
    ensures forall j :: r < j < |c| ==> c[j].high < c[r].high
  {
    ScanFromNewestFindsHigh(c);
    HighScan(c, |c| - 1, |c| - 1)
  }

  /** The scan started at the newest candle covers all nineteen. */
  lemma ScanFromNewestFindsHigh(c: seq<PriceRecord>)
    requires |c| > MinCandleCount
    ensures var r := HighScan(c, |c| - 1, |c| - 1);
      && (forall j :: |c| - ScanLength <= j < |c| ==> c[r].high >= c[j].high)
      && (forall j :: r < j < |c| ==> c[j].high < c[r].high)
  {
    HighScanFinds(c, |c| - 1, |c| - 1);
  }

  /** Candle `i` made a higher high than the candle before it. */
  predicate HigherHighAt(c: seq<PriceRecord>, i: int)
    requires 1 <= i < |c|
  {
    c[i - 1].high < c[i].high
  }

  /** Candle `i` made a lower low than the candle before it. */
  predicate LowerLowAt(c: seq<PriceRecord>, i: int)
    requires 1 <= i < |c|
  {
    c[i - 1].low > c[i].low
  }

  /** `formedSwingHighOrLow`: only the candidate's direction is used. The
      first comparison pairs the extreme candle with the candle before it. */
  function FormedSwingHighOrLow(c: seq<PriceRecord>, candidate: AnalyzeResult): (r: bool)
    ensures |c| <= MinCandleCount || candidate.direction == Unrecognised ==> !r
    ensures |c| > MinCandleCount && candidate.direction == Bullish ==>
      (r <==> exists i :: LatestLowestLow(c) <= i < |c| && HigherHighAt(c, i))
    ensures |c| > MinCandleCount && candidate.direction == Bearish ==>
      (r <==> exists i :: LatestHighestHigh(c) <= i < |c| && LowerLowAt(c, i))
  {
    if |c| > MinCandleCount then
      match candidate.direction
      case Bullish => exists i :: LatestLowestLow(c) <= i < |c| && HigherHighAt(c, i)
      case Bearish => exists i :: LatestHighestHigh(c) <= i < |c| && LowerLowAt(c, i)
      case Unrecognised => false
    else false
  }

  /** The low scan reads only the scanned candles. */
  lemma {:induction false} LowScanReadsWindow(c1: seq<PriceRecord>, c2: seq<PriceRecord>, index: int, best: nat)
    requires |c1| == |c2| && |c1| > MinCandleCount
    requires |c1| - ScanLength - 1 <= index < |c1|
    requires |c1| - ScanLength <= best < |c1|
    requires forall j :: |c1| - ScanLength <= j < |c1| ==> c1[j].low == c2[j].low
    ensures LowScan(c1, index, best) == LowScan(c2, index, best)
    decreases index
  {
    if index >= |c1| - ScanLength {
      var next := if c1[index].low < c1[best].low then index else best;
      LowScanReadsWindow(c1, c2, index - 1, next);
    }
  }

  /** The high scan reads only the scanned candles. */
  lemma {:induction false} HighScanReadsWindow(c1: seq<PriceRecord>, c2: seq<PriceRecord>, index: int, best: nat)
    requires |c1| == |c2| && |c1| > MinCandleCount
    requires |c1| - ScanLength - 1 <= index < |c1|
    requires |c1| - ScanLength <= best < |c1|
    requires forall j :: |c1| - ScanLength <= j < |c1| ==> c1[j].high == c2[j].high
    ensures HighScan(c1, index, best) == HighScan(c2, index, best)
    decreases index
  {
    if index >= |c1| - ScanLength {
      var next := if c1[index].high > c1[best].high then index else best;
      HighScanReadsWindow(c1, c2, index - 1, next);
    }
  }

  /** The swing check depends only on the newest twenty candles (the
      nineteen scanned ones and the one before them) and on the number of
      candles. */
  lemma SwingDependsOnNewestTwenty(c1: seq<PriceRecord>, c2: seq<PriceRecord>, candidate: AnalyzeResult)
    requires |c1| == |c2|
    requires forall j :: |c1| - ScanLength - 1 <= j < |c1| && 0 <= j ==> c1[j] == c2[j]
    ensures FormedSwingHighOrLow(c1, candidate) == FormedSwingHighOrLow(c2, candidate)
  {
    if |c1| > MinCandleCount {
      LowScanReadsWindow(c1, c2, |c1| - 1, |c1| - 1);
      HighScanReadsWindow(c1, c2, |c1| - 1, |c1| - 1);
      var lo := LatestLowestLow(c1);
      var hi := LatestHighestHigh(c1);
      assert forall i :: lo <= i < |c1| ==> (HigherHighAt(c1, i) <==> HigherHighAt(c2, i));
      assert forall i :: hi <= i < |c1| ==> (LowerLowAt(c1, i) <==> LowerLowAt(c2, i));
    }
  }
}
