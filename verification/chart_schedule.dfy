/** The chart-data side of the analyzer: the once-a-minute guard on the
    1-minute event number, the cascade of floor divisions that turns it into
    the event numbers of longer timeframes, the schedule of the 4-hour,
    2-hour and 1-hour analyses, and the grouping of fetched rows by symbol.
    Database queries are replaced by their results, passed in. */
module ChartSchedule {
  import opened Types

  /** Rows of each symbol, oldest first. */
  type ChartData = map<string, seq<PriceRecord>>

  /** Every symbol present has at least one row. */
  predicate NonEmptyRows(chart: ChartData) {
    forall k | k in chart :: |chart[k]| > 0
  }

  /** The newest row of every symbol, as a one-row chart. */
  function LatestOf(chart: ChartData): (r: ChartData)
    requires NonEmptyRows(chart)
    ensures r.Keys == chart.Keys
    ensures forall k | k in r :: r[k] == [chart[k][|chart[k]| - 1]]
  {
    map k | k in chart :: [chart[k][|chart[k]| - 1]]
  }

  datatype Storage = Storage(last1MinuteEventNumber: int, latestSymbolValues: ChartData)

  /** What one minute tick does: the new storage state, the latest values
      broadcast (if any), and whether the longer timeframes are processed. */
  datatype Tick = Tick(storage: Storage, broadcast: Option<ChartData>, processCharts: bool)

  /** `fetch1MinuteChartData`. `fetched` is the grouped result of the
      1-minute query, absent when the query failed. */
  function Fetch1MinuteChartData(st: Storage, eventNumber: int, fetched: Option<ChartData>): (r: Tick)
    requires fetched.Some? ==> NonEmptyRows(fetched.value)
    ensures eventNumber <= st.last1MinuteEventNumber ==> r == Tick(st, None, false)
    ensures eventNumber > st.last1MinuteEventNumber ==>
      && r.storage.last1MinuteEventNumber == eventNumber
      && (r.processCharts <==> eventNumber % 15 == 0)
      && (fetched.None? ==> r.broadcast.None? && r.storage.latestSymbolValues == st.latestSymbolValues)
      && (fetched.Some? ==>
            && r.broadcast == Some(r.storage.latestSymbolValues)
            && r.storage.latestSymbolValues.Keys == fetched.value.Keys
            && forall k | k in fetched.value ::
                 r.storage.latestSymbolValues[k] == [fetched.value[k][|fetched.value[k]| - 1]])
    ensures r.storage.last1MinuteEventNumber >= st.last1MinuteEventNumber
  {
    if st.last1MinuteEventNumber < eventNumber then
      var latest := if fetched.Some? then LatestOf(fetched.value) else st.latestSymbolValues;
      var broadcast := if fetched.Some? then Some(latest) else None;
      Tick(Storage(eventNumber, latest), broadcast, eventNumber % 15 == 0)
    else Tick(st, None, false)
  }

  /** Over any sequence of ticks the stored minute number never decreases,
      and it ends at or above every minute number offered. */
  lemma {:induction false} MinuteNumberOnlyGrows(st: Storage, minutes: seq<int>)
    ensures var r := Replay(st, minutes);
      && r.last1MinuteEventNumber >= st.last1MinuteEventNumber
      && forall i :: 0 <= i < |minutes| ==> minutes[i] <= r.last1MinuteEventNumber
    decreases |minutes|
  {
    if |minutes| > 0 {
      var prefix := minutes[..|minutes| - 1];
      MinuteNumberOnlyGrows(st, prefix);
      forall i | 0 <= i < |minutes| - 1
        ensures minutes[i] == prefix[i]
      {
      }
    }
  }

  /** The storage state after ticks with the given minute numbers whose
      queries all failed. */
  function Replay(st: Storage, minutes: seq<int>): Storage
    decreases |minutes|
  {
    if |minutes| == 0 then st
    else Fetch1MinuteChartData(Replay(st, minutes[..|minutes| - 1]), minutes[|minutes| - 1], None).storage
  }

  /** The event numbers of the longer timeframes, each obtained from the
      previous one by a floor division. */
  datatype EventNumbers = EventNumbers(
    minute5: int, minute15: int, minute30: int, hour1: int, hour2: int, hour4: int, hour12: int, day1: int)

  /** The cascade of `fetchChartData` as written: the 12-hour number is the
      4-hour number halved and the day number the 12-hour number halved, so
      they count 480-minute and 960-minute periods. Neither is used by the
      schedule. */
  function WrittenCascade(n: int): (r: EventNumbers)
    ensures r.minute15 == n / 15
    ensures r.hour1 == n / 60 && r.hour2 == n / 120 && r.hour4 == n / 240
    ensures r.hour12 == n / 480 && r.day1 == n / 960
  {
    var m5 := n / 5;
    var m15 := m5 / 3;
    var m30 := m15 / 2;
    var h1 := m30 / 2;
    var h2 := h1 / 2;
    var h4 := h2 / 2;
    var h12 := h4 / 2;
    var d1 := h12 / 2;
    HourlyCascade(n);
    NestedDivision(n, 240, 2);
    NestedDivision(n, 480, 2);
    EventNumbers(m5, m15, m30, h1, h2, h4, h12, d1)
  }

  /** Minute 480 still lies in the first 12-hour candle and minute 960 in
      the first day, yet the cascade as written numbers both as the second. */
  lemma WrittenCascadeMiscountsLongCandles()
    ensures WrittenCascade(480).hour12 == 1 && 480 / Minutes(TwelveHour) == 0
    ensures WrittenCascade(960).day1 == 1 && 960 / Minutes(OneDay) == 0
  {
  }

  /** The cascade with the 12-hour number taken as a third of the 4-hour
      number: every field counts whole candles of its own timeframe. */
  function Cascade(n: int): (r: EventNumbers)
    ensures r.minute5 == n / Minutes(FiveMinute) && r.minute15 == n / Minutes(FifteenMinute)
    ensures r.minute30 == n / Minutes(ThirtyMinute) && r.hour1 == n / Minutes(OneHour)
    ensures r.hour2 == n / Minutes(TwoHour) && r.hour4 == n / Minutes(FourHour)
    ensures r.hour12 == n / Minutes(TwelveHour) && r.day1 == n / Minutes(OneDay)
    ensures r.hour1 == WrittenCascade(n).hour1 && r.hour2 == WrittenCascade(n).hour2
    ensures r.hour4 == WrittenCascade(n).hour4 && r.minute15 == WrittenCascade(n).minute15
  {
    var m5 := n / 5;
    var m15 := m5 / 3;
    var m30 := m15 / 2;
    var h1 := m30 / 2;
    var h2 := h1 / 2;
    var h4 := h2 / 2;
    var h12 := h4 / 3;
    var d1 := h12 / 2;
    HourlyCascade(n);
    NestedDivision(n, 240, 3);
    NestedDivision(n, 720, 2);
    EventNumbers(m5, m15, m30, h1, h2, h4, h12, d1)
  }

  /** The common part of both cascades, up to the 4-hour number. */
  lemma HourlyCascade(n: int)
    ensures n / 5 / 3 == n / 15 && n / 15 / 2 == n / 30 && n / 30 / 2 == n / 60
    ensures n / 60 / 2 == n / 120 && n / 120 / 2 == n / 240
  {
    NestedDivision(n, 5, 3);
    NestedDivision(n, 15, 2);
    NestedDivision(n, 30, 2);
    NestedDivision(n, 60, 2);
    NestedDivision(n, 120, 2);
  }

  /** A quotient and remainder in range are the floor division's. */
  lemma DivisionUnique(n: int, d: int, q: int, rem: int)
    requires d > 0 && n == d * q + rem && 0 <= rem < d
    ensures n / d == q
  {
    var q' := n / d;
    var rem' := n % d;
    assert n == d * q' + rem';
    if q' > q {
      assert d * q' >= d * (q + 1) by { MultiplyMonotone(d, q + 1, q'); }
      assert false;
    } else if q' < q {
      assert d * q >= d * (q' + 1) by { MultiplyMonotone(d, q' + 1, q); }
      assert false;
    }
  }

  lemma MultiplyMonotone(d: int, a: int, b: int)
    requires d > 0 && a <= b
    ensures d * a <= d * b
  {
    assert d * b - d * a == d * (b - a);
  }

  /** Dividing by `a` and then by `b`, rounding down each time, is dividing
      by `a * b`. */
  lemma NestedDivision(n: int, a: int, b: int)
    requires a > 0 && b > 0
    ensures (n / a) / b == n / (a * b)
  {
    var q := n / a;
    var rem := n % a;
    var q2 := q / b;
    var rem2 := q % b;
    assert n == a * q + rem;
    assert q == b * q2 + rem2;
    assert n == (a * b) * q2 + (a * rem2 + rem) by {
      assert a * q == a * (b * q2) + a * rem2;
      assert a * (b * q2) == (a * b) * q2;
    }
    assert 0 <= a * rem2 by { MultiplyMonotone(a, 0, rem2); }
    assert a * rem2 <= a * (b - 1) by { MultiplyMonotone(a, rem2, b - 1); }
    assert a * (b - 1) == a * b - a;
    DivisionUnique(n, a * b, q2, a * rem2 + rem);
  }

  /** `fetchChartData`: the analyses run for one 15-minute tick, in order,
      with the event number each one fetches; the session is finished after
      them. */
  function ScheduledAnalyses(n: int): (r: seq<(Timeframe, int)>)
    ensures |r| <= 3
    ensures forall i :: 0 <= i < |r| ==> r[i].0 in {FourHour, TwoHour, OneHour}
  {
    var e := Cascade(n);
    (if e.minute15 % 16 == 0 then [(FourHour, e.hour4)] else []) +
    (if e.minute15 % 8 == 0 then [(TwoHour, e.hour2)] else []) +
    (if e.minute15 % 4 == 0 then [(OneHour, e.hour1)] else [])
  }

  predicate Runs(n: int, tf: Timeframe) {
    exists i :: 0 <= i < |ScheduledAnalyses(n)| && ScheduledAnalyses(n)[i].0 == tf
  }

  /** On a multiple of 15 minutes, the 15-minute number is a multiple of
      16, 8 or 4 exactly when the minute number is a multiple of 240, 120 or
      60. */
  lemma QuarterHourFlags(n: int)
    requires n % 15 == 0
    ensures (n / 15) % 16 == 0 <==> n % 240 == 0
    ensures (n / 15) % 8 == 0 <==> n % 120 == 0
    ensures (n / 15) % 4 == 0 <==> n % 60 == 0
  {
    var m := n / 15;
    assert n == 15 * m;
    ModuloOfMultiple(m, 15, 16);
    ModuloOfMultiple(m, 15, 8);
    ModuloOfMultiple(m, 15, 4);
  }

  /** Which analyses a tick runs, read off its 15-minute number. */
  lemma RunsByFlags(n: int)
    ensures Runs(n, FourHour) <==> (n / 15) % 16 == 0
    ensures Runs(n, TwoHour) <==> (n / 15) % 8 == 0
    ensures Runs(n, OneHour) <==> (n / 15) % 4 == 0
    ensures forall i :: 0 <= i < |ScheduledAnalyses(n)| ==>
      ScheduledAnalyses(n)[i].1 == n / Minutes(ScheduledAnalyses(n)[i].0)
  {
    var m := n / 15;
    var r := ScheduledAnalyses(n);
    var four: seq<(Timeframe, int)> := if m % 16 == 0 then [(FourHour, n / 240)] else [];
    var two: seq<(Timeframe, int)> := if m % 8 == 0 then [(TwoHour, n / 120)] else [];
    var one: seq<(Timeframe, int)> := if m % 4 == 0 then [(OneHour, n / 60)] else [];
    assert r == four + two + one;
    if m % 16 == 0 { assert r[0].0 == FourHour; }
    if m % 8 == 0 { assert r[|four|].0 == TwoHour; }
    if m % 4 == 0 { assert r[|four| + |two|].0 == OneHour; }
  }

  /** On the minute numbers where charts are processed (multiples of 15), the
      4-hour analysis runs exactly on multiples of 240 minutes, the 2-hour one
      on multiples of 120 and the 1-hour one on multiples of 60, so 4-hour
      implies 2-hour implies 1-hour; each analysis fetches the current
      candle's event number of its timeframe. */
  lemma ScheduleFollowsTheClock(n: int)
    requires n % 15 == 0
    ensures Runs(n, FourHour) <==> n % 240 == 0
    ensures Runs(n, TwoHour) <==> n % 120 == 0
    ensures Runs(n, OneHour) <==> n % 60 == 0
    ensures Runs(n, FourHour) ==> Runs(n, TwoHour)
    ensures Runs(n, TwoHour) ==> Runs(n, OneHour)
    ensures forall i :: 0 <= i < |ScheduledAnalyses(n)| ==>
      ScheduledAnalyses(n)[i].1 == n / Minutes(ScheduledAnalyses(n)[i].0)
  {
    QuarterHourFlags(n);
    RunsByFlags(n);
    var m := n / 15;
    if m % 16 == 0 { assert m == 16 * (m / 16); assert m == 8 * (2 * (m / 16)); }
    if m % 8 == 0 { assert m == 8 * (m / 8); assert m == 4 * (2 * (m / 8)); }
  }

  /** `15 m` is a multiple of `15 k` exactly when `m` is a multiple of `k`. */
  lemma ModuloOfMultiple(m: int, c: int, k: int)
    requires c > 0 && k > 0
    ensures (c * m) % (c * k) == 0 <==> m % k == 0
  {
    if m % k == 0 {
      var q := m / k;
      assert c * m == (c * k) * q;
      DivisionUnique(c * m, c * k, q, 0);
    }
    if (c * m) % (c * k) == 0 {
      var q := (c * m) / (c * k);
      assert c * m == (c * k) * q;
      assert c * (m - k * q) == 0;
      assert m == k * q;
      DivisionUnique(m, k, q, 0);
    }
  }

  /** The rows of `rows` with the given symbol, in order. */
  function RowsOf(rows: seq<PriceRecord>, symbol: string): seq<PriceRecord> {
    if |rows| == 0 then []
    else
      var earlier := RowsOf(rows[..|rows| - 1], symbol);
      if rows[|rows| - 1].symbol == symbol then earlier + [rows[|rows| - 1]] else earlier
  }

  /** The grouping loop of `fetchAndFormatData`: rows of traded symbols are
      appended to their symbol's list, in query order. */
  function GroupRows(rows: seq<PriceRecord>, trading: seq<string>): (r: ChartData)
    ensures forall k :: k in r <==> k in trading && |RowsOf(rows, k)| > 0
    ensures forall k | k in r :: r[k] == RowsOf(rows, k)
    ensures NonEmptyRows(r)
  {
    if |rows| == 0 then map[]
    else
      var earlier := GroupRows(rows[..|rows| - 1], trading);
      var row := rows[|rows| - 1];
      if row.symbol in trading then
        earlier[row.symbol := (if row.symbol in earlier then earlier[row.symbol] else []) + [row]]
      else earlier
  }

  /** Grouping keeps every row of a traded symbol and nothing else. */
  lemma {:induction false} GroupingKeepsTradedRows(rows: seq<PriceRecord>, trading: seq<string>)
    ensures forall i :: 0 <= i < |rows| && rows[i].symbol in trading ==>
      rows[i].symbol in GroupRows(rows, trading) && rows[i] in GroupRows(rows, trading)[rows[i].symbol]
    ensures forall k | k in GroupRows(rows, trading) :: forall x | x in GroupRows(rows, trading)[k] ::
      x.symbol == k && x in rows
  {
    var g := GroupRows(rows, trading);
    forall k
      ensures RowsOfFacts(rows, k)
    {
      RowsOfMembership(rows, k);
    }
    forall i | 0 <= i < |rows| && rows[i].symbol in trading
      ensures rows[i].symbol in g && rows[i] in g[rows[i].symbol]
    {
      var k := rows[i].symbol;
      assert RowsOfFacts(rows, k);
      assert rows[i] in RowsOf(rows, k);
    }
    forall k: string | k in g
      ensures forall x: PriceRecord | x in g[k] :: x.symbol == k && x in rows
    {
      assert RowsOfFacts(rows, k);
    }
  }

  predicate RowsOfFacts(rows: seq<PriceRecord>, k: string) {
    && (forall i :: 0 <= i < |rows| && rows[i].symbol == k ==> rows[i] in RowsOf(rows, k))
    && (forall x | x in RowsOf(rows, k) :: x.symbol == k && x in rows)
  }

  lemma {:induction false} RowsOfMembership(rows: seq<PriceRecord>, k: string)
    ensures RowsOfFacts(rows, k)
    decreases |rows|
  {
    if |rows| > 0 {
      var prefix := rows[..|rows| - 1];
      RowsOfMembership(prefix, k);
      forall i | 0 <= i < |rows| - 1
        ensures rows[i] == prefix[i]
      {
      }
    }
  }

  /** `fillLatestSymbolData`: every symbol of the chart that has a latest
      value gets that value appended once; the others are untouched. */
  function FillLatestSymbolData(chart: ChartData, latest: ChartData): (r: ChartData)
    requires NonEmptyRows(latest)
    ensures r.Keys == chart.Keys
    ensures forall k | k in chart && k in latest ::
      |r[k]| == |chart[k]| + 1 && r[k][..|chart[k]|] == chart[k] && r[k][|chart[k]|] == latest[k][0]
    ensures forall k | k in chart && k !in latest :: r[k] == chart[k]
  {
    map k | k in chart :: if k in latest then chart[k] + [latest[k][0]] else chart[k]
  }

  /** After a successful minute tick the latest values are one-row lists,
      so filling a chart with them appends that symbol's newest minute row. */
  lemma FillAppendsNewestMinuteRow(st: Storage, eventNumber: int, fetched: ChartData, chart: ChartData, k: string)
    requires NonEmptyRows(fetched)
    requires eventNumber > st.last1MinuteEventNumber
    requires k in chart && k in fetched
    ensures var latest := Fetch1MinuteChartData(st, eventNumber, Some(fetched)).storage.latestSymbolValues;
      NonEmptyRows(latest) &&
      FillLatestSymbolData(chart, latest)[k] == chart[k] + [fetched[k][|fetched[k]| - 1]]
  {
    var latest := Fetch1MinuteChartData(st, eventNumber, Some(fetched)).storage.latestSymbolValues;
    assert forall j | j in latest :: latest[j] == [fetched[j][|fetched[j]| - 1]];
  }
}
