/** The least-squares trend check: fit a line through the last `count`
    values of a series (x = position in the series) and compare the fitted
    value at the last position with the one at position 0. */
module LinearRegression {
  import opened Types

  /** The running sums of the fit. The positions are whole numbers, so their
      sums are kept as integers (every float involved represents them
      exactly). */
  datatype Sums = Sums(n: int, sx: int, sy: real, sxx: int, sxy: real)

  /** The sum of the last `v` positions of a series of length `len`. */
  function SumX(len: int, v: nat): int {
    if v == 0 then 0 else SumX(len, v - 1) + (len - v)
  }

  /** The sum of the squares of the last `v` positions. */
  function SumXX(len: int, v: nat): int {
    if v == 0 then 0 else SumXX(len, v - 1) + (len - v) * (len - v)
  }

  /** The sums over the last `v` points of `data`, visited oldest first. */
  function Accumulate(data: seq<real>, v: nat): (s: Sums)
    requires v <= |data|
    ensures s.n == v && s.sx == SumX(|data|, v) && s.sxx == SumXX(|data|, v)
  {
    if v == 0 then Sums(0, 0, 0.0, 0, 0.0)
    else
      AddPoint(Accumulate(data, v - 1), |data| - v, data[|data| - v])
  }

  /** The sums with the point (x, y) added. */
  function AddPoint(s: Sums, x: int, y: real): Sums {
    Sums(s.n + 1, s.sx + x, s.sy + y, s.sxx + x * x, s.sxy + x as real * y)
  }

  /** The denominator of the slope. */
  function Denominator(s: Sums): int {
    s.n * s.sxx - s.sx * s.sx
  }

  /** The fitted slope; zero stands for the undefined slope of fewer than two
      points, which the boolean result never depends on. */
  function Slope(data: seq<real>, count: nat): real
    requires count <= |data|
  {
    SlopeOfSums(Accumulate(data, count))
  }

  /** Whether the fitted line through position 0 and position `lastX`
      moves in the asked direction. */
  function LineMoves(trend: Direction, m: real, b: real, lastX: real): (r: bool)
    requires lastX >= 1.0
    ensures trend == Bullish ==> (r <==> m > 0.0)
    ensures trend == Bearish ==> (r <==> m < 0.0)
    ensures trend == Unrecognised ==> !r
  {
    var first := 0.0 * m + b;
    var last := lastX * m + b;
    FittedLineDirection(m, b, lastX);
    (trend == Bullish && last > first) || (trend == Bearish && last < first)
  }

  /** `linearRegression`. With fewer than two points the slope is 0/0 (NaN)
      and every comparison with it is false. Asking for more points than the
      series holds reads undefined values, so the sums are NaN and the answer
      is false as well. */
  function LinearRegressionTrend(trend: Direction, data: seq<real>, count: nat): (r: bool)
    ensures count < 2 || count > |data| ==> !r
    ensures trend == Unrecognised ==> !r
    ensures 2 <= count <= |data| ==> (trend == Bullish ==> (r <==> Slope(data, count) > 0.0))
    ensures 2 <= count <= |data| ==> (trend == Bearish ==> (r <==> Slope(data, count) < 0.0))
  {
    if count > |data| then false
    else
      DenominatorSign(data, count);
      TrendOfSums(trend, Accumulate(data, count), |data|)
  }

  /** The trend check on already accumulated sums over a series of length
      `len`. */
  function TrendOfSums(trend: Direction, s: Sums, len: int): (r: bool)
    requires Denominator(s) != 0 ==> s.n != 0 && len >= 2
    ensures Denominator(s) == 0 ==> !r
    ensures Denominator(s) != 0 && trend == Bullish ==> (r <==> SlopeOfSums(s) > 0.0)
    ensures Denominator(s) != 0 && trend == Bearish ==> (r <==> SlopeOfSums(s) < 0.0)
    ensures trend == Unrecognised ==> !r
  {
    if Denominator(s) == 0 then false
    else
      var n := s.n as real;
      var m := SlopeOfSums(s);
      var b := s.sy / n - m * s.sx as real / n;
      LineMoves(trend, m, b, (len - 1) as real)
  }

  /** The least-squares slope of accumulated sums, zero when undefined. */
  function SlopeOfSums(s: Sums): real {
    var d := Denominator(s);
    if d == 0 then 0.0 else (s.n as real * s.sxy - s.sx as real * s.sy) / d as real
  }

  /** The fitted line rises from position 0 to a later position exactly when
      its slope is positive. */
  lemma FittedLineDirection(m: real, b: real, x: real)
    requires x >= 1.0
    ensures x * m + b > 0.0 * m + b <==> m > 0.0
    ensures x * m + b < 0.0 * m + b <==> m < 0.0
  {
    if m > 0.0 { assert (x - 1.0) * m >= 0.0; }
    if m < 0.0 { assert (x - 1.0) * m <= 0.0; }
  }

  /** The sum of squared distances from position `c` of the last `w`
      positions of a series of length `len`. */
  function SquaredDistances(len: int, w: nat, c: int): (r: int)
    ensures r >= 0
  {
    if w == 0 then 0
    else
      var d := len - w - c;
      SquareBounds(d);
      SquaredDistances(len, w - 1, c) + d * d
  }

  /** One accumulation step moves the distance measure from `c` by one
      squared distance. */
  lemma DistanceStep(n: int, sx: int, sxx: int, x: int, c: int, before: int)
    requires sxx - 2 * c * sx + n * c * c == before
    ensures (sxx + x * x) - 2 * c * (sx + x) + (n + 1) * c * c == before + (x - c) * (x - c)
  {
  }

  /** The position sums measure squared distances: sxx - 2c sx + n c^2 equals
      the sum of (x - c)^2 over the accumulated positions. */
  lemma {:induction false} SumsMeasureDistances(len: int, w: nat, c: int)
    ensures SumXX(len, w) - 2 * c * SumX(len, w) + w * c * c == SquaredDistances(len, w, c)
  {
    if w > 0 {
      SumsMeasureDistances(len, w - 1, c);
      DistanceStep(w - 1, SumX(len, w - 1), SumXX(len, w - 1), len - w, c, SquaredDistances(len, w - 1, c));
    }
  }

  /** The newest position contributes at least one to the squared distances
      from a position at least one step older than it. */
  lemma {:induction false} NewestPositionIsFar(len: int, w: nat, c: int)
    requires w >= 1
    requires c < len - 1
    ensures SquaredDistances(len, w, c) >= 1
    decreases w
  {
    var d := len - w - c;
    assert SquaredDistances(len, w, c) == SquaredDistances(len, w - 1, c) + d * d;
    SquareBounds(d);
    if w > 1 {
      NewestPositionIsFar(len, w - 1, c);
    }
  }

  lemma SquareBounds(d: int)
    ensures d * d >= 0
    ensures d >= 1 ==> d * d >= d
  {
  }

  /** One accumulation step raises the slope's denominator by the distance
      measure of the earlier positions from the new position `x`. */
  lemma DenominatorStep(n: int, sx: int, sxx: int, x: int)
    ensures (n + 1) * (sxx + x * x) - (sx + x) * (sx + x)
         == (n * sxx - sx * sx) + (sxx - 2 * x * sx + n * x * x)
  {
  }

  /** The slope's denominator over the last `count` positions is zero for
      fewer than two points and positive otherwise. */
  lemma {:induction false} PositionDenominatorSign(len: int, count: nat)
    ensures count < 2 ==> count * SumXX(len, count) - SumX(len, count) * SumX(len, count) == 0
    ensures count >= 2 ==> count * SumXX(len, count) - SumX(len, count) * SumX(len, count) > 0
    decreases count
  {
    if count >= 1 {
      var x := len - count;
      SumsMeasureDistances(len, count - 1, x);
      DenominatorStep(count - 1, SumX(len, count - 1), SumXX(len, count - 1), x);
      PositionDenominatorSign(len, count - 1);
      if count >= 2 {
        NewestPositionIsFar(len, count - 1, x);
      }
    }
  }

  /** The slope is defined exactly when at least two points are fitted. */
  lemma DenominatorSign(data: seq<real>, count: nat)
    requires count <= |data|
    ensures count < 2 ==> Denominator(Accumulate(data, count)) == 0
    ensures count >= 2 ==> Denominator(Accumulate(data, count)) > 0
  {
    PositionDenominatorSign(|data|, count);
  }

  /** The sums read only the last `count` values (and the series' length). */
  lemma {:induction false} SumsReadOnlyTail(d1: seq<real>, d2: seq<real>, count: nat)
    requires count <= |d1| == |d2|
    requires forall j :: |d1| - count <= j < |d1| ==> d1[j] == d2[j]
    ensures Accumulate(d1, count) == Accumulate(d2, count)
  {
    if count > 0 {
      SumsReadOnlyTail(d1, d2, count - 1);
      assert d1[|d1| - count] == d2[|d2| - count];
      assert Accumulate(d1, count) == AddPoint(Accumulate(d1, count - 1), |d1| - count, d1[|d1| - count]);
    }
  }

  /** The trend check reads only the last `count` values. */
  lemma FitReadsOnlyTail(d1: seq<real>, d2: seq<real>, count: nat, trend: Direction)
    requires |d1| == |d2|
    requires forall j :: 0 <= j < |d1| && |d1| - count <= j ==> d1[j] == d2[j]
    ensures LinearRegressionTrend(trend, d1, count) == LinearRegressionTrend(trend, d2, count)
  {
    if count <= |d1| {
      SumsReadOnlyTail(d1, d2, count);
    }
  }
}
