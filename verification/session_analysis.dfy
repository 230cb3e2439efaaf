/** The analysis session: every symbol's chart of one timeframe is run
    through the detectors, retained opportunities are enriched with band and
    RSI readings (at most one per symbol), 4-hour charts feed four extreme
    trackers, and finishing the session ranks and emits everything and
    resets the state. */
module SessionAnalysis {
  import opened Types
  import opened BollingerBandDetector
  import opened OpportunityFilter
  import StrategyChain

  /** What the session reads of one symbol's chart: the detectors' answer
      and the last close, band value, 14-period RSI value and event number. */
  datatype SymbolChart = SymbolChart(
    symbol: string,
    found: Option<AnalyzeResult>,
    lastClose: real,
    lastBand: Band,
    lastRsi: real,
    lastEventNumber: int)

  datatype Session = Session(
    opportunities: seq<AnalyzeResult>,
    important: seq<AnalyzeResult>,
    selected: seq<string>,
    highestBbScore: real,
    lowestBbScore: real,
    highestRsiScore: real,
    lowestRsiScore: real,
    highestBb: Option<AnalyzeResult>,
    lowestBb: Option<AnalyzeResult>,
    highestRsi: Option<AnalyzeResult>,
    lowestRsi: Option<AnalyzeResult>)

  /** The state at start-up and after every finished session. */
  const InitialSession: Session := Session([], [], [], 0.0, 0.0, 0.0, 100.0, None, None, None, None)

  /** Only opportunities of these timeframes are kept. */
  predicate AllowedTimeframe(tf: Timeframe) {
    tf == OneHour || tf == TwoHour || tf == FourHour
  }

  /** The band divisions the session performs on this chart are defined. */
  predicate ChartReady(tf: Timeframe, c: SymbolChart) {
    && (c.found.Some? ==>
          (c.found.value.direction == Bullish ==> c.lastBand.middle != c.lastBand.lower) &&
          (c.found.value.direction == Bearish ==> c.lastBand.upper != c.lastBand.middle))
    && (tf == FourHour ==>
          (c.lastClose < c.lastBand.middle ==> c.lastBand.middle != c.lastBand.lower) &&
          (c.lastClose > c.lastBand.middle ==> c.lastBand.upper != c.lastBand.middle))
  }

  predicate NoDuplicates(s: seq<string>) {
    forall i, j :: 0 <= i < j < |s| ==> s[i] != s[j]
  }

  /** What every session state satisfies: one enriched opportunity per
      selected symbol, important entries are overextension signals, and each
      tracker's result is present exactly when its score has left the
      initial value, with the score past the threshold. */
  predicate SessionInv(s: Session) {
    ListsInv(s) && TrackersInv(s)
  }

  /** The retained lists' part of the invariant. */
  predicate ListsInv(s: Session) {
    && |s.opportunities| == |s.selected|
    && (forall i :: 0 <= i < |s.selected| ==> s.opportunities[i].symbol == s.selected[i])
    && NoDuplicates(s.selected)
    && (forall o | o in s.opportunities ::
          Scored(o) && o.strategy != Rsi3PeriodOverextend && AllowedTimeframe(o.timeFrame))
    && (forall o | o in s.important ::
          o.strategy == Rsi3PeriodOverextend && AllowedTimeframe(o.timeFrame))
  }

  /** The trackers' part of the invariant. */
  predicate TrackersInv(s: Session) {
    && (s.highestBb.None? ==> s.highestBbScore == 0.0)
    && TrackersTagged(s)
    && (s.highestBb.Some? ==> s.highestBbScore > 0.8)
    && (s.lowestBb.None? ==> s.lowestBbScore == 0.0)
    && (s.lowestBb.Some? ==> s.lowestBbScore < -0.8)
    && (s.highestRsi.None? ==> s.highestRsiScore == 0.0)
    && (s.highestRsi.Some? ==> s.highestRsiScore > 70.0 && s.highestRsi.value.rsiValue == Some(s.highestRsiScore))
    && (s.lowestRsi.None? ==> s.lowestRsiScore == 100.0)
    && (s.lowestRsi.Some? ==> s.lowestRsiScore < 30.0 && s.lowestRsi.value.rsiValue == Some(s.lowestRsiScore))
  }

  /** Each tracker holds an entry of its own strategy. */
  predicate TrackersTagged(s: Session) {
    && (s.highestBb.Some? ==> s.highestBb.value.strategy == HighestBb)
    && (s.lowestBb.Some? ==> s.lowestBb.value.strategy == LowestBb)
    && (s.highestRsi.Some? ==> s.highestRsi.value.strategy == HighestRsi)
    && (s.lowestRsi.Some? ==> s.lowestRsi.value.strategy == LowestRsi)
  }

  lemma InitialSessionInv()
    ensures SessionInv(InitialSession)
  {
  }

  /** The result enriched with the chart's last readings. */
  function Enriched(o: AnalyzeResult, c: SymbolChart): (r: AnalyzeResult)
    requires o.direction == Bullish ==> c.lastBand.middle != c.lastBand.lower
    requires o.direction == Bearish ==> c.lastBand.upper != c.lastBand.middle
    ensures Scored(r)
    ensures r.rsiValue == Some(c.lastRsi)
    ensures r.bollingerBandPercentage == Some(BandPercentage(o.direction, c.lastClose, c.lastBand))
    ensures r.(rsiValue := o.rsiValue, bollingerBandPercentage := o.bollingerBandPercentage) == o
  {
    o.(bollingerBandPercentage := Some(BandPercentage(o.direction, c.lastClose, c.lastBand)),
       rsiValue := Some(c.lastRsi))
  }

  /** The retention step of one chart: an overextension signal is always
      kept as important, any other signal is kept, enriched, only for a
      symbol not selected yet in this session. */
  function Retain(s: Session, c: SymbolChart): (r: Session)
    requires ChartReady(FourHour, c)
    ensures r.(opportunities := s.opportunities, important := s.important, selected := s.selected) == s
    ensures c.found.None? || !AllowedTimeframe(c.found.value.timeFrame) ==> r == s
    ensures c.found.Some? && AllowedTimeframe(c.found.value.timeFrame) &&
            c.found.value.strategy == Rsi3PeriodOverextend ==>
      r == s.(important := s.important + [c.found.value])
    ensures c.found.Some? && AllowedTimeframe(c.found.value.timeFrame) &&
            c.found.value.strategy != Rsi3PeriodOverextend ==>
      && r.important == s.important
      && (c.symbol in s.selected ==> r == s)
      && (c.symbol !in s.selected ==>
            r.selected == s.selected + [c.symbol] &&
            r.opportunities == s.opportunities + [Enriched(c.found.value, c)])
  {
    if c.found.Some? && AllowedTimeframe(c.found.value.timeFrame) then
      var o := c.found.value;
      if o.strategy == Rsi3PeriodOverextend then s.(important := s.important + [o])
      else if c.symbol !in s.selected then
        s.(selected := s.selected + [c.symbol], opportunities := s.opportunities + [Enriched(o, c)])
      else s
    else s
  }

  /** Retention keeps the session invariant when the detectors' answer is
      about the chart's own symbol. */
  lemma RetainKeepsInv(s: Session, c: SymbolChart)
    requires ChartReady(FourHour, c)
    ensures SessionInv(s) && (c.found.Some? ==> c.found.value.symbol == c.symbol) ==> SessionInv(Retain(s, c))
  {
    var r := Retain(s, c);
    if SessionInv(s) && (c.found.Some? ==> c.found.value.symbol == c.symbol) {
      assert TrackersInv(r) by {
        assert r.highestBb == s.highestBb && r.lowestBb == s.lowestBb;
        assert r.highestRsi == s.highestRsi && r.lowestRsi == s.lowestRsi;
        assert r.highestBbScore == s.highestBbScore && r.lowestBbScore == s.lowestBbScore;
        assert r.highestRsiScore == s.highestRsiScore && r.lowestRsiScore == s.lowestRsiScore;
      }
      if c.found.Some? && AllowedTimeframe(c.found.value.timeFrame) {
        var o := c.found.value;
        if o.strategy == Rsi3PeriodOverextend {
          ImportantKeepsLists(s, o);
        } else if c.symbol !in s.selected {
          SelectionKeepsLists(s, c.symbol, Enriched(o, c));
        }
      }
    }
  }

  /** Keeping one more overextension signal keeps the lists' invariant. */
  lemma ImportantKeepsLists(s: Session, o: AnalyzeResult)
    requires ListsInv(s) && o.strategy == Rsi3PeriodOverextend && AllowedTimeframe(o.timeFrame)
    ensures ListsInv(s.(important := s.important + [o]))
  {
  }

  /** Selecting a new symbol with a scored opportunity of its own keeps the
      lists' invariant. */
  lemma SelectionKeepsLists(s: Session, symbol: string, e: AnalyzeResult)
    requires ListsInv(s) && symbol !in s.selected && e.symbol == symbol
    requires Scored(e) && e.strategy != Rsi3PeriodOverextend && AllowedTimeframe(e.timeFrame)
    ensures ListsInv(s.(selected := s.selected + [symbol], opportunities := s.opportunities + [e]))
  {
    var r := s.(selected := s.selected + [symbol], opportunities := s.opportunities + [e]);
    assert forall i :: 0 <= i < |s.selected| ==> s.selected[i] in s.selected;
    assert NoDuplicates(r.selected);
    assert forall i :: 0 <= i < |r.selected| ==> r.opportunities[i].symbol == r.selected[i];
  }

  /** The tracker entry for a 4-hour chart. */
  function Extreme(c: SymbolChart, strategy: Strategy, direction: Direction): AnalyzeResult {
    AnalyzeResult(c.symbol, strategy, direction, FourHour, c.lastEventNumber, Some(c.lastRsi), None, 0.0, None)
  }

  /** The band score of the chart's last close. */
  function ChartScore(c: SymbolChart): real
    requires ChartReady(FourHour, c)
  {
    BandScore(c.lastClose, c.lastBand)
  }

  /** The tracking step: on 4-hour charts, each tracker takes the chart over
      when its reading passes the tracker's threshold and strictly beats
      the tracked extreme. */
  function Track(s: Session, tf: Timeframe, c: SymbolChart): (r: Session)
    requires ChartReady(tf, c)
    ensures r.opportunities == s.opportunities && r.important == s.important && r.selected == s.selected
    ensures tf != FourHour ==> r == s
    ensures tf == FourHour ==>
      var score := ChartScore(c);
      && (if score > 0.8 && s.highestBbScore < score
          then r.highestBbScore == score && r.highestBb == Some(Extreme(c, HighestBb, Bearish))
          else r.highestBbScore == s.highestBbScore && r.highestBb == s.highestBb)
      && (if score < -0.8 && s.lowestBbScore > score
          then r.lowestBbScore == score && r.lowestBb == Some(Extreme(c, LowestBb, Bullish))
          else r.lowestBbScore == s.lowestBbScore && r.lowestBb == s.lowestBb)
      && (if c.lastRsi > 70.0 && s.highestRsiScore < c.lastRsi
          then r.highestRsiScore == c.lastRsi && r.highestRsi == Some(Extreme(c, HighestRsi, Bearish))
          else r.highestRsiScore == s.highestRsiScore && r.highestRsi == s.highestRsi)
      && (if c.lastRsi < 30.0 && s.lowestRsiScore > c.lastRsi
          then r.lowestRsiScore == c.lastRsi && r.lowestRsi == Some(Extreme(c, LowestRsi, Bullish))
          else r.lowestRsiScore == s.lowestRsiScore && r.lowestRsi == s.lowestRsi)
  {
    if tf == FourHour then
      var score := ChartScore(c);
      var rsi := c.lastRsi;
      var s1 := if score > 0.8 && s.highestBbScore < score
                then s.(highestBbScore := score, highestBb := Some(Extreme(c, HighestBb, Bearish))) else s;
      var s2 := if score < -0.8 && s1.lowestBbScore > score
                then s1.(lowestBbScore := score, lowestBb := Some(Extreme(c, LowestBb, Bullish))) else s1;
      var s3 := if rsi > 70.0 && s2.highestRsiScore < rsi
                then s2.(highestRsiScore := rsi, highestRsi := Some(Extreme(c, HighestRsi, Bearish))) else s2;
      if rsi < 30.0 && s3.lowestRsiScore > rsi
      then s3.(lowestRsiScore := rsi, lowestRsi := Some(Extreme(c, LowestRsi, Bullish))) else s3
    else s
  }

  /** Tracking keeps the session invariant: a tracker only takes a reading
      past its threshold, tagged with its own strategy. */
  lemma TrackKeepsInv(s: Session, tf: Timeframe, c: SymbolChart)
    requires ChartReady(tf, c)
    ensures SessionInv(s) ==> SessionInv(Track(s, tf, c))
  {
    var r := Track(s, tf, c);
    if SessionInv(s) {
      assert ListsInv(r) by {
        assert r.opportunities == s.opportunities && r.important == s.important && r.selected == s.selected;
      }
    }
  }

  /** The analysis of one symbol's chart. */
  function AnalyzeSymbol(s: Session, tf: Timeframe, c: SymbolChart): (r: Session)
    requires ChartReady(tf, c) && ChartReady(FourHour, c)
    ensures SessionInv(s) && (c.found.Some? ==> c.found.value.symbol == c.symbol) ==> SessionInv(r)
  {
    RetainKeepsInv(s, c);
    TrackKeepsInv(Retain(s, c), tf, c);
    Track(Retain(s, c), tf, c)
  }

  /** The charts' detector answers are about the charts' own symbols. */
  predicate ChartsReady(tf: Timeframe, charts: seq<SymbolChart>) {
    forall c | c in charts ::
      ChartReady(tf, c) && ChartReady(FourHour, c) && (c.found.Some? ==> c.found.value.symbol == c.symbol)
  }

  /** `analyzeData`: the charts of every symbol, in order. */
  function AnalyzeData(s: Session, tf: Timeframe, charts: seq<SymbolChart>): (r: Session)
    requires ChartsReady(tf, charts)
    ensures SessionInv(s) ==> SessionInv(r)
    ensures |s.opportunities| <= |r.opportunities| && r.opportunities[..|s.opportunities|] == s.opportunities
    ensures tf != FourHour ==>
      r.highestBb == s.highestBb && r.lowestBb == s.lowestBb &&
      r.highestRsi == s.highestRsi && r.lowestRsi == s.lowestRsi
    decreases |charts|
  {
    if |charts| == 0 then s
    else
      var before := AnalyzeData(s, tf, charts[..|charts| - 1]);
      var c := charts[|charts| - 1];
      assert c in charts;
      var r := AnalyzeSymbol(before, tf, c);
      assert r.opportunities == Retain(before, c).opportunities;
      assert r.opportunities[..|before.opportunities|] == before.opportunities;
      r
  }

  /** The four extreme trackers of a session. */
  datatype Tracker = HighBand | LowBand | HighRsi | LowRsi

  /** The chart reading a tracker compares. */
  function Reading(k: Tracker, c: SymbolChart): real
    requires ChartReady(FourHour, c)
  {
    if k == HighBand || k == LowBand then ChartScore(c) else c.lastRsi
  }

  /** The tracker's current score. */
  function Score(k: Tracker, s: Session): real {
    match k
    case HighBand => s.highestBbScore
    case LowBand => s.lowestBbScore
    case HighRsi => s.highestRsiScore
    case LowRsi => s.lowestRsiScore
  }

  /** The tracker's current entry. */
  function Entry(k: Tracker, s: Session): Option<AnalyzeResult> {
    match k
    case HighBand => s.highestBb
    case LowBand => s.lowestBb
    case HighRsi => s.highestRsi
    case LowRsi => s.lowestRsi
  }

  /** The entry a chart leaves in the tracker. */
  function TrackerEntry(k: Tracker, c: SymbolChart): AnalyzeResult {
    match k
    case HighBand => Extreme(c, HighestBb, Bearish)
    case LowBand => Extreme(c, LowestBb, Bullish)
    case HighRsi => Extreme(c, HighestRsi, Bearish)
    case LowRsi => Extreme(c, LowestRsi, Bullish)
  }

  /** The reading passes the tracker's threshold. */
  predicate Passes(k: Tracker, v: real) {
    match k
    case HighBand => v > 0.8
    case LowBand => v < -0.8
    case HighRsi => v > 70.0
    case LowRsi => v < 30.0
  }

  /** `a` is at least as extreme as `b` in the tracker's direction. */
  predicate AtLeast(k: Tracker, a: real, b: real) {
    if k == HighBand || k == HighRsi then a >= b else a <= b
  }

  /** The run over some charts is the run over all but the last one,
      followed by the analysis of the last chart. */
  lemma LastChart(s: Session, tf: Timeframe, charts: seq<SymbolChart>)
    requires ChartsReady(tf, charts) && |charts| > 0
    ensures ChartsReady(tf, charts[..|charts| - 1])
    ensures ChartReady(tf, charts[|charts| - 1]) && ChartReady(FourHour, charts[|charts| - 1])
    ensures AnalyzeData(s, tf, charts) ==
      Track(Retain(AnalyzeData(s, tf, charts[..|charts| - 1]), charts[|charts| - 1]), tf, charts[|charts| - 1])
  {
    assert forall c | c in charts[..|charts| - 1] :: c in charts;
    assert charts[|charts| - 1] in charts;
  }

  /** Retention leaves every tracker alone. */
  lemma RetainKeepsTracker(k: Tracker, s: Session, c: SymbolChart)
    requires ChartReady(FourHour, c)
    ensures Entry(k, Retain(s, c)) == Entry(k, s) && Score(k, Retain(s, c)) == Score(k, s)
  {
  }

  /** One tracking step never loses ground and reaches the chart's own
      passing reading. */
  lemma TrackStepBounds(k: Tracker, s: Session, c: SymbolChart)
    requires ChartReady(FourHour, c)
    ensures AtLeast(k, Score(k, Track(s, FourHour, c)), Score(k, s))
    ensures Passes(k, Reading(k, c)) ==> AtLeast(k, Score(k, Track(s, FourHour, c)), Reading(k, c))
  {
  }

  /** A tracker ends at or beyond every 4-hour chart reading that passed its
      threshold, and never behind where it started. */
  lemma {:induction false} TrackersBoundEveryChart(k: Tracker, s: Session, charts: seq<SymbolChart>)
    requires ChartsReady(FourHour, charts)
    ensures var r := AnalyzeData(s, FourHour, charts);
      && AtLeast(k, Score(k, r), Score(k, s))
      && forall i :: 0 <= i < |charts| && Passes(k, Reading(k, charts[i])) ==>
           AtLeast(k, Score(k, r), Reading(k, charts[i]))
    decreases |charts|
  {
    if |charts| > 0 {
      var prefix := charts[..|charts| - 1];
      var c := charts[|charts| - 1];
      LastChart(s, FourHour, charts);
      TrackersBoundEveryChart(k, s, prefix);
      var before := AnalyzeData(s, FourHour, prefix);
      var r := AnalyzeData(s, FourHour, charts);
      RetainKeepsTracker(k, before, c);
      TrackStepBounds(k, Retain(before, c), c);
      forall i | 0 <= i < |charts| && Passes(k, Reading(k, charts[i]))
        ensures AtLeast(k, Score(k, r), Reading(k, charts[i]))
      {
        if i < |prefix| {
          assert charts[i] == prefix[i];
        }
      }
    }
  }

  /** One tracking step either keeps the tracker or hands it the chart's
      entry and reading. */
  lemma TrackStepSource(k: Tracker, s: Session, c: SymbolChart)
    requires ChartReady(FourHour, c)
    ensures var r := Track(s, FourHour, c);
      || (Entry(k, r) == Entry(k, s) && Score(k, r) == Score(k, s))
      || (Entry(k, r) == Some(TrackerEntry(k, c)) && Score(k, r) == Reading(k, c))
  {
  }

  /** The tracker's entry, if any, is the entry of the `i`-th chart, whose
      reading equals the tracked score. */
  predicate SourcedAt(k: Tracker, s: Session, charts: seq<SymbolChart>, i: nat) {
    Entry(k, s).Some? ==>
      && i < |charts|
      && ChartReady(FourHour, charts[i])
      && Entry(k, s).value == TrackerEntry(k, charts[i])
      && Reading(k, charts[i]) == Score(k, s)
  }

  /** A tracked extreme is the entry of one of the session's 4-hour charts,
      the `i`-th, whose reading equals the tracked score. */
  lemma {:induction false} TrackedExtremesComeFromCharts(k: Tracker, charts: seq<SymbolChart>) returns (i: nat)
    requires ChartsReady(FourHour, charts)
    ensures SourcedAt(k, AnalyzeData(InitialSession, FourHour, charts), charts, i)
    decreases |charts|
  {
    i := 0;
    if |charts| > 0 {
      LastChart(InitialSession, FourHour, charts);
      var j := TrackedExtremesComeFromCharts(k, charts[..|charts| - 1]);
      i := SourceStep(k, AnalyzeData(InitialSession, FourHour, charts[..|charts| - 1]), charts, j);
    }
  }

  /** Analysing one more chart keeps every tracked extreme sourced: either
      the tracker stays, with its source among the earlier charts, or it
      takes the new chart. */
  lemma SourceStep(k: Tracker, before: Session, charts: seq<SymbolChart>, j: nat) returns (i: nat)
    requires |charts| > 0 && ChartReady(FourHour, charts[|charts| - 1])
    requires SourcedAt(k, before, charts[..|charts| - 1], j)
    ensures SourcedAt(k, Track(Retain(before, charts[|charts| - 1]), FourHour, charts[|charts| - 1]), charts, i)
  {
    var c := charts[|charts| - 1];
    var r := Track(Retain(before, c), FourHour, c);
    RetainKeepsTracker(k, before, c);
    TrackStepSource(k, Retain(before, c), c);
    if Entry(k, r) == Some(TrackerEntry(k, c)) && Score(k, r) == Reading(k, c) {
      i := |charts| - 1;
    } else {
      i := j;
      if Entry(k, r).Some? {
        assert charts[j] == charts[..|charts| - 1][j];
      }
    }
  }

  /** A session keeps at most one opportunity per symbol. */
  lemma OneOpportunityPerSymbol(s: Session)
    requires SessionInv(s)
    ensures forall i, j :: 0 <= i < j < |s.opportunities| ==> s.opportunities[i].symbol != s.opportunities[j].symbol
  {
  }

  /** The rank of the extra entries in the emitted list. */
  function ExtraOrder(strategy: Strategy): nat {
    match strategy
    case LowestBb => 0
    case LowestRsi => 1
    case HighestBb => 2
    case HighestRsi => 3
    case _ => 4
  }

  function Present(o: Option<AnalyzeResult>): (r: seq<AnalyzeResult>)
    ensures o.Some? ==> r == [o.value]
    ensures o.None? ==> r == []
    ensures forall x | x in r :: Some(x) == o
  {
    if o.Some? then [o.value] else []
  }

  /** The entries' ranks strictly increase along the list. */
  predicate RanksIncrease(r: seq<AnalyzeResult>) {
    forall i, j :: 0 <= i < j < |r| ==> ExtraOrder(r[i].strategy) < ExtraOrder(r[j].strategy)
  }

  /** Every entry ranks below `k`. */
  predicate RanksBelow(r: seq<AnalyzeResult>, k: nat) {
    forall i :: 0 <= i < |r| ==> ExtraOrder(r[i].strategy) < k
  }

  /** The tracked extremes, lowest band score first, then lowest RSI, highest
      band score and highest RSI. */
  function Extras(s: Session): (r: seq<AnalyzeResult>)
    ensures |r| <= 4
  {
    Present(s.lowestBb) + Present(s.lowestRsi) + Present(s.highestBb) + Present(s.highestRsi)
  }

  /** `x` is one of the session's four tracked extremes. */
  predicate Tracked(s: Session, x: AnalyzeResult) {
    Some(x) == s.lowestBb || Some(x) == s.lowestRsi || Some(x) == s.highestBb || Some(x) == s.highestRsi
  }

  /** The extra entries are exactly the tracked extremes. */
  lemma ExtrasAreTheTrackers(s: Session)
    ensures forall x :: x in Extras(s) <==> Tracked(s, x)
  {
    var a, b, c, d := Present(s.lowestBb), Present(s.lowestRsi), Present(s.highestBb), Present(s.highestRsi);
    assert Extras(s) == a + b + c + d;
    forall x
      ensures x in Extras(s) <==> Tracked(s, x)
    {
      assert x in a + b + c + d <==> x in a || x in b || x in c || x in d;
    }
  }

  /** The extra entries come in the order lowest band score, lowest RSI,
      highest band score, highest RSI. */
  lemma ExtrasInRankOrder(s: Session)
    requires TrackersTagged(s)
    ensures RanksIncrease(Extras(s))
  {
    var r1 := Present(s.lowestBb);
    var r2 := r1 + Present(s.lowestRsi);
    var r3 := r2 + Present(s.highestBb);
    assert RanksIncrease(r1) && RanksBelow(r1, 1) by {
      OrderedFirst(s.lowestBb, 0);
    }
    assert RanksIncrease(r2) && RanksBelow(r2, 2) by {
      OrderedAppend(r1, s.lowestRsi, 1);
    }
    assert RanksIncrease(r3) && RanksBelow(r3, 3) by {
      OrderedAppend(r2, s.highestBb, 2);
    }
    assert Extras(s) == r3 + Present(s.highestRsi);
    OrderedAppend(r3, s.highestRsi, 3);
  }

  /** A single entry of rank `k` is ordered and ranks below `k + 1`. */
  lemma OrderedFirst(o: Option<AnalyzeResult>, k: nat)
    requires o.Some? ==> ExtraOrder(o.value.strategy) == k
    ensures RanksIncrease(Present(o)) && RanksBelow(Present(o), k + 1)
  {
  }

  /** Appending an entry of rank `k` to entries of lower, increasing rank
      keeps the ranks increasing. */
  lemma OrderedAppend(r: seq<AnalyzeResult>, o: Option<AnalyzeResult>, k: nat)
    requires RanksIncrease(r) && RanksBelow(r, k)
    requires o.Some? ==> ExtraOrder(o.value.strategy) == k
    ensures RanksIncrease(r + Present(o)) && RanksBelow(r + Present(o), k + 1)
  {
  }

  lemma ThreeParts(a: seq<AnalyzeResult>, b: seq<AnalyzeResult>, c: seq<AnalyzeResult>)
    ensures (a + b + c)[..|a|] == a
    ensures (a + b + c)[|a|..|a| + |b|] == b
    ensures (a + b + c)[|a| + |b|..] == c
  {
  }

  /** The number of opportunities kept from the ranking. */
  const SessionLimit: nat := 3

  datatype Finished = Finished(emitted: seq<AnalyzeResult>, next: Session, logMessage: Option<string>,
                               log: seq<AnalyzeResult>)

  /** `finishSessionProcessing`: flush the candidate log, emit the ranked
      opportunities, the important ones and the extremes, and reset. */
  function FinishSession(s: Session, log: seq<AnalyzeResult>): (r: Finished)
    requires SessionInv(s)
    ensures r.next == InitialSession && r.log == []
    ensures r.logMessage.Some? <==> |log| > 0
    ensures var ranked := FilterBestOpportunities(s.opportunities, SessionLimit);
      && |ranked| + |s.important| <= |r.emitted| <= |ranked| + |s.important| + 4
      && r.emitted[..|ranked|] == ranked
      && r.emitted[|ranked|..|ranked| + |s.important|] == s.important
      && r.emitted[|ranked| + |s.important|..] == Extras(s)
  {
    var flushed := StrategyChain.LogSessionSignals(log);
    var ranked := FilterBestOpportunities(s.opportunities, SessionLimit);
    var emitted := ranked + s.important + Extras(s);
    ThreeParts(ranked, s.important, Extras(s));
    Finished(emitted, InitialSession, flushed.message, flushed.log)
  }
}
