/** Helpers shared by the two RSI divergence detectors: the tail window of
    (rsi, close, event) points and the running-extremum scans over it. */
module RsiWindow {
  import opened Types

  /** One window entry: an RSI value with the close price and event number of
      the candle it belongs to. */
  datatype Point = Point(rsiValue: real, closePrice: real, eventNumber: int)

  /** The window built by `unshift`-ing the entries at offsets 1..count from
      the end of both series, so the result is oldest first. */
  function Unshifted(candles: seq<PriceRecord>, rsi: seq<real>, count: nat): (w: seq<Point>)
    requires count <= |candles| && count <= |rsi|
    ensures |w| == count
    ensures forall k :: 0 <= k < count ==>
      w[k] == Point(rsi[|rsi| - count + k], candles[|candles| - count + k].close,
                    candles[|candles| - count + k].eventNumber)
  {
    if count == 0 then []
    else
      [Point(rsi[|rsi| - count], candles[|candles| - count].close, candles[|candles| - count].eventNumber)]
      + Unshifted(candles, rsi, count - 1)
  }

  /** The running-minimum scan of a `forEach` that starts from `best` and
      replaces it only by a strictly lower RSI, visiting indices from `k`. */
  function LowestFrom(w: seq<Point>, k: nat, best: nat): (r: nat)
    requires best < |w| && k <= |w|
    decreases |w| - k
    ensures r < |w|
    ensures w[r].rsiValue <= w[best].rsiValue
    ensures forall j :: k <= j < |w| ==> w[r].rsiValue <= w[j].rsiValue
    ensures r == best || (k <= r && w[r].rsiValue < w[best].rsiValue &&
                          forall j :: k <= j < r ==> w[j].rsiValue > w[r].rsiValue)
  {
    if k == |w| then best
    else LowestFrom(w, k + 1, if w[k].rsiValue < w[best].rsiValue then k else best)
  }

  /** The index of the lowest RSI bottom: the scan starts from the newest
      entry, so the newest entry wins when it is a minimum, and otherwise the
      oldest minimum wins. */
  function LowestIndex(w: seq<Point>): (r: nat)
    requires |w| > 0
    ensures r < |w|
    ensures forall j :: 0 <= j < |w| ==> w[r].rsiValue <= w[j].rsiValue
    ensures (forall j :: 0 <= j < |w| ==> w[|w| - 1].rsiValue <= w[j].rsiValue) ==> r == |w| - 1
    ensures r < |w| - 1 ==> forall j :: 0 <= j < r ==> w[j].rsiValue > w[r].rsiValue
  {
    LowestFrom(w, 0, |w| - 1)
  }

  /** The running-maximum scan, mirror of `LowestFrom`. */
  function HighestFrom(w: seq<Point>, k: nat, best: nat): (r: nat)
    requires best < |w| && k <= |w|
    decreases |w| - k
    ensures r < |w|
    ensures w[r].rsiValue >= w[best].rsiValue
    ensures forall j :: k <= j < |w| ==> w[r].rsiValue >= w[j].rsiValue
    ensures r == best || (k <= r && w[r].rsiValue > w[best].rsiValue &&
                          forall j :: k <= j < r ==> w[j].rsiValue < w[r].rsiValue)
  {
    if k == |w| then best
    else HighestFrom(w, k + 1, if w[k].rsiValue > w[best].rsiValue then k else best)
  }

  /** The index of the highest RSI top, mirror of `LowestIndex`. */
  function HighestIndex(w: seq<Point>): (r: nat)
    requires |w| > 0
    ensures r < |w|
    ensures forall j :: 0 <= j < |w| ==> w[r].rsiValue >= w[j].rsiValue
    ensures (forall j :: 0 <= j < |w| ==> w[|w| - 1].rsiValue >= w[j].rsiValue) ==> r == |w| - 1
    ensures r < |w| - 1 ==> forall j :: 0 <= j < r ==> w[j].rsiValue < w[r].rsiValue
  {
    HighestFrom(w, 0, |w| - 1)
  }

  /** The second bottom is far enough from the first in RSI or in price:
      RSI more than 10 points higher, or a close more than `limit` percent
      below the first bottom's close. */
  predicate BottomsDiffer(first: Point, second: Point, limit: real) {
    || second.closePrice < first.closePrice - first.closePrice / 100.0 * limit
    || second.rsiValue > first.rsiValue + 10.0
  }

  /** Mirror of `BottomsDiffer` for two tops. */
  predicate TopsDiffer(first: Point, second: Point, limit: real) {
    || second.closePrice > first.closePrice + first.closePrice / 100.0 * limit
    || second.rsiValue < first.rsiValue - 10.0
  }
}
