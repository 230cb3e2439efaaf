/** Repeat-signal suppression before a list of signals is sent: a bounded,
    newest-first history of sent signals, the check that lets a signal
    through, and the selection of the signals a message is made of. */
module SignalHistory {
  import opened Types

  /** The history never grows beyond this many entries. */
  const HistoryLimit: nat := 100
  /** A repeated signal passes only when it is more than this many events
      newer than the previous one. */
  const RepeatGap: int := 20

  /** `pushToRecentSignals`: the signal goes to the front and, when that
      makes the history too long, the oldest entry is dropped. */
  function PushToRecentSignals(history: seq<AnalyzeResult>, signal: AnalyzeResult): (r: seq<AnalyzeResult>)
    ensures |r| == if |history| >= HistoryLimit then |history| else |history| + 1
    ensures r[0] == signal
    ensures r[1..] <= history
    ensures |history| <= HistoryLimit ==> |r| <= HistoryLimit
  {
    var pushed := [signal] + history;
    if |pushed| > HistoryLimit then
      assert pushed[1..|pushed| - 1] == history[..|history| - 1];
      pushed[..|pushed| - 1]
    else
      assert pushed[1..] == history;
      pushed
  }

  /** The history entry speaks of the same symbol, strategy and timeframe. */
  predicate SameKind(item: AnalyzeResult, signal: AnalyzeResult) {
    item.symbol == signal.symbol && item.strategy == signal.strategy && item.timeFrame == signal.timeFrame
  }

  /** Signals of these strategies are never compared with the history. */
  predicate NeverSuppressed(strategy: Strategy) {
    strategy == RsiDivergence || strategy == SwingHighLow
  }

  /** The newest history entry of the signal's kind, searched from index
      `from` on; none for strategies that are never suppressed. */
  function NewestMatch(history: seq<AnalyzeResult>, signal: AnalyzeResult, from: nat): (r: Option<nat>)
    decreases |history| - from
    ensures NeverSuppressed(signal.strategy) ==> r.None?
    ensures r.Some? ==> from <= r.value < |history| && SameKind(history[r.value], signal)
    ensures r.Some? ==> forall j :: from <= j < r.value ==> !SameKind(history[j], signal)
    ensures r.None? && !NeverSuppressed(signal.strategy) ==>
      forall j :: from <= j < |history| ==> !SameKind(history[j], signal)
  {
    if from >= |history| || NeverSuppressed(signal.strategy) then None
    else if SameKind(history[from], signal) then Some(from)
    else NewestMatch(history, signal, from + 1)
  }

  /** `signalNotInRecentList`. The previous event number is checked for
      truthiness, so a previous event number of 0 counts as no match. */
  function SignalNotInRecentList(history: seq<AnalyzeResult>, signal: AnalyzeResult): (r: bool)
    ensures NeverSuppressed(signal.strategy) ==> r
    ensures (forall j :: 0 <= j < |history| ==> !SameKind(history[j], signal)) ==> r
  {
    match NewestMatch(history, signal, 0)
    case None => true
    case Some(i) =>
      var previous := history[i].eventNumber;
      previous == 0 || signal.eventNumber > previous + RepeatGap
  }

  /** A signal is suppressed exactly when its strategy can be suppressed
      and the newest history entry of its kind has a non-zero event number
      that is at most the gap older than the signal's. */
  lemma SuppressionMeansRecentRepeat(history: seq<AnalyzeResult>, signal: AnalyzeResult)
    ensures !SignalNotInRecentList(history, signal) <==> exists i ::
      && 0 <= i < |history|
      && SameKind(history[i], signal)
      && (forall j :: 0 <= j < i ==> !SameKind(history[j], signal))
      && !NeverSuppressed(signal.strategy)
      && history[i].eventNumber != 0
      && signal.eventNumber <= history[i].eventNumber + RepeatGap
  {
    var m := NewestMatch(history, signal, 0);
  }

  /** Right after a signal (with a non-zero event number) was sent, the
      same signal is suppressed unless its strategy is never suppressed. */
  lemma SentSignalSuppressesItsRepeat(history: seq<AnalyzeResult>, signal: AnalyzeResult)
    requires signal.eventNumber != 0
    ensures SignalNotInRecentList(PushToRecentSignals(history, signal), signal) <==>
            NeverSuppressed(signal.strategy)
  {
    var h := PushToRecentSignals(history, signal);
    assert SameKind(h[0], signal);
  }

  /** A repeat passes again once it is more than the gap newer than the
      newest sent signal of its kind. */
  lemma RepeatPassesAfterGap(history: seq<AnalyzeResult>, previous: AnalyzeResult, signal: AnalyzeResult)
    requires SameKind(previous, signal)
    requires signal.eventNumber > previous.eventNumber + RepeatGap
    ensures SignalNotInRecentList(PushToRecentSignals(history, previous), signal)
  {
    var h := PushToRecentSignals(history, previous);
    assert SameKind(h[0], signal);
    assert NewestMatch(h, signal, 0).None? || NewestMatch(h, signal, 0) == Some(0);
  }

  /** The selection the sending step makes, as a reference: signals are
      examined in order, and each one that passes the check against the
      history as it stands is selected and pushed to the history. */
  function Select(history: seq<AnalyzeResult>, results: seq<AnalyzeResult>): (r: (seq<AnalyzeResult>, seq<AnalyzeResult>))
    ensures |r.0| <= |results|
    ensures |history| <= HistoryLimit ==> |r.1| <= HistoryLimit
    ensures multiset(r.0) <= multiset(results)
  {
    if |results| == 0 then ([], history)
    else
      var before := Select(history, results[..|results| - 1]);
      var signal := results[|results| - 1];
      assert results == results[..|results| - 1] + [signal];
      if SignalNotInRecentList(before.1, signal)
      then (before.0 + [signal], PushToRecentSignals(before.1, signal))
      else before
  }

  /** The sequence in reverse order. */
  function Reversed(s: seq<AnalyzeResult>): (r: seq<AnalyzeResult>)
    ensures |r| == |s|
    ensures forall i :: 0 <= i < |s| ==> r[i] == s[|s| - 1 - i]
  {
    if |s| == 0 then [] else [s[|s| - 1]] + Reversed(s[..|s| - 1])
  }

  /** How long a history of `h` entries is after `n` more pushes: it grows
      by one per push up to the limit, and a history already at or beyond
      the limit keeps its length. */
  function HistoryLength(h: nat, n: nat): nat {
    if h >= HistoryLimit then h
    else if h + n < HistoryLimit then h + n
    else HistoryLimit
  }

  /** Pushing one signal onto a history cut from `t` gives the history cut
      from the signal followed by `t`. */
  lemma PushOntoCut(t: seq<AnalyzeResult>, h: nat, n: nat, x: AnalyzeResult)
    requires HistoryLength(h, n) <= |t|
    requires HistoryLength(h, n) >= h
    ensures PushToRecentSignals(t[..HistoryLength(h, n)], x) == ([x] + t)[..HistoryLength(h, n + 1)]
  {
    var l0 := HistoryLength(h, n);
    var pushed := [x] + t[..l0];
    assert pushed == ([x] + t)[..l0 + 1];
    if l0 + 1 > HistoryLimit {
      assert pushed[..l0] == ([x] + t)[..l0];
    }
  }

  /** Selecting from a non-empty list examines its last signal against
      the history the earlier signals left. */
  lemma SelectLast(history: seq<AnalyzeResult>, results: seq<AnalyzeResult>)
    requires |results| > 0
    ensures var before := Select(history, results[..|results| - 1]);
      var x := results[|results| - 1];
      Select(history, results) ==
        if SignalNotInRecentList(before.1, x)
        then (before.0 + [x], PushToRecentSignals(before.1, x))
        else before
  {
  }

  /** A non-empty sequence is its front followed by its last element. */
  lemma SplitLast(s: seq<AnalyzeResult>)
    requires |s| > 0
    ensures s == s[..|s| - 1] + [s[|s| - 1]]
  {
  }

  /** The history holds the selections newest first in front of the old
      history. */
  predicate NewestFirst(history: seq<AnalyzeResult>, passed: seq<AnalyzeResult>, h: seq<AnalyzeResult>) {
    HistoryLength(|history|, |passed|) <= |passed| + |history| &&
    h == (Reversed(passed) + history)[..HistoryLength(|history|, |passed|)]
  }

  /** One more examined signal keeps the history newest first. */
  lemma NewestFirstStep(history: seq<AnalyzeResult>, b0: seq<AnalyzeResult>, b1: seq<AnalyzeResult>, x: AnalyzeResult)
    requires NewestFirst(history, b0, b1)
    ensures NewestFirst(history, b0 + [x], PushToRecentSignals(b1, x))
  {
    var t := Reversed(b0) + history;
    assert Reversed(b0 + [x]) == [x] + Reversed(b0) by {
      assert (b0 + [x])[..|b0|] == b0;
    }
    assert [x] + t == Reversed(b0 + [x]) + history;
    PushOntoCut(t, |history|, |b0|, x);
  }

  /** The history after a selection holds the selected signals, newest
      first, in front of the old history, cut to the length the pushes
      allow. */
  lemma {:induction false} SelectKeepsNewestFirst(history: seq<AnalyzeResult>, results: seq<AnalyzeResult>)
    ensures var s := Select(history, results);
      s.1 == (Reversed(s.0) + history)[..HistoryLength(|history|, |s.0|)]
    ensures NewestFirst(history, Select(history, results).0, Select(history, results).1)
  {
    if |results| == 0 {
      assert Reversed([]) + history == history;
    } else {
      var before := Select(history, results[..|results| - 1]);
      SelectKeepsNewestFirst(history, results[..|results| - 1]);
      SelectLast(history, results);
      var x := results[|results| - 1];
      if SignalNotInRecentList(before.1, x) {
        NewestFirstStep(history, before.0, before.1, x);
      }
    }
  }

  /** `idx` lists, in increasing order, the positions of `results` the
      signals of `passed` were taken from, and every never-suppressed
      signal's position is among them. */
  predicate ChosenInOrder(results: seq<AnalyzeResult>, passed: seq<AnalyzeResult>, idx: seq<nat>) {
    && |idx| == |passed|
    && (forall k :: 0 <= k < |idx| ==> idx[k] < |results| && passed[k] == results[idx[k]])
    && (forall k, l :: 0 <= k < l < |idx| ==> idx[k] < idx[l])
    && (forall i :: 0 <= i < |results| && NeverSuppressed(results[i].strategy) ==> i in idx)
  }

  /** One more examined signal, taken when it is never suppressed, keeps
      the choice in order. */
  lemma ChosenInOrderStep(init: seq<AnalyzeResult>, p0: seq<AnalyzeResult>, idx0: seq<nat>,
                          x: AnalyzeResult, passes: bool)
    returns (idx: seq<nat>)
    requires ChosenInOrder(init, p0, idx0)
    requires NeverSuppressed(x.strategy) ==> passes
    ensures ChosenInOrder(init + [x], if passes then p0 + [x] else p0, idx)
  {
    var results := init + [x];
    var passed := if passes then p0 + [x] else p0;
    idx := if passes then idx0 + [|init|] else idx0;
    assert forall k :: 0 <= k < |idx0| ==> idx[k] == idx0[k] && passed[k] == p0[k];
    forall k | 0 <= k < |idx|
      ensures idx[k] < |results| && passed[k] == results[idx[k]]
    {
      if k < |idx0| {
        assert results[idx0[k]] == init[idx0[k]];
      }
    }
    forall i | 0 <= i < |results| && NeverSuppressed(results[i].strategy)
      ensures i in idx
    {
      if i < |init| {
        assert results[i] == init[i];
        var k :| 0 <= k < |idx0| && idx0[k] == i;
        assert idx[k] == i;
      } else {
        assert idx[|idx0|] == i;
      }
    }
  }

  /** The selected signals are results taken in their original order, and
      no signal of a strategy that is never suppressed is left out. */
  lemma {:induction false} SelectKeepsOrder(history: seq<AnalyzeResult>, results: seq<AnalyzeResult>)
    returns (idx: seq<nat>)
    ensures ChosenInOrder(results, Select(history, results).0, idx)
  {
    if |results| == 0 {
      idx := [];
    } else {
      var init := results[..|results| - 1];
      var x := results[|results| - 1];
      var before := Select(history, init);
      var idx0 := SelectKeepsOrder(history, init);
      SelectLast(history, results);
      SplitLast(results);
      if SignalNotInRecentList(before.1, x) {
        assert Select(history, results).0 == before.0 + [x];
        idx := ChosenInOrderStep(init, before.0, idx0, x, true);
      } else {
        assert Select(history, results).0 == before.0;
        idx := ChosenInOrderStep(init, before.0, idx0, x, false);
      }
    }
  }

  /** Two passed signals of one suppressible kind, the earlier with a
      positive event number and at most a history length before the later,
      are more than the gap apart. */
  predicate RepeatsSeparated(p: seq<AnalyzeResult>) {
    forall k, l ::
      && 0 <= k < l < |p| && l - k <= HistoryLimit
      && SameKind(p[k], p[l]) && !NeverSuppressed(p[l].strategy) && p[k].eventNumber > 0
      ==> p[l].eventNumber > p[k].eventNumber + RepeatGap
  }

  /** A selection at most a history length back is still in the history,
      as many entries from the front as selections followed it. */
  lemma NewestFirstHolds(history: seq<AnalyzeResult>, b0: seq<AnalyzeResult>, b1: seq<AnalyzeResult>, k: nat)
    requires NewestFirst(history, b0, b1)
    requires k < |b0| && |b0| - k <= HistoryLimit
    ensures |b0| - 1 - k < |b1| && b1[|b0| - 1 - k] == b0[k]
  {
    assert (Reversed(b0) + history)[|b0| - 1 - k] == Reversed(b0)[|b0| - 1 - k];
  }

  /** A signal that passes the check against the history the earlier
      selections left is far enough from each earlier selection of its
      kind that the history still holds. */
  lemma PassedAfterSeparated(h: seq<AnalyzeResult>, b0: seq<AnalyzeResult>, b1: seq<AnalyzeResult>,
                             x: AnalyzeResult, k: nat)
    requires NewestFirst(h, b0, b1)
    requires RepeatsSeparated(b0)
    requires SignalNotInRecentList(b1, x)
    requires k < |b0| && |b0| - k <= HistoryLimit
    requires SameKind(b0[k], x) && !NeverSuppressed(x.strategy) && b0[k].eventNumber > 0
    ensures x.eventNumber > b0[k].eventNumber + RepeatGap
  {
    var j := |b0| - 1 - k;
    NewestFirstHolds(h, b0, b1, k);
    var m := NewestMatch(b1, x, 0);
    assert SameKind(b1[j], x);
    assert m.Some?;
    var i := m.value;
    assert i <= j;
    var mm := |b0| - 1 - i;
    NewestFirstHolds(h, b0, b1, mm);
    if mm > k {
      assert SameKind(b0[k], b0[mm]);
      assert b0[mm].eventNumber > b0[k].eventNumber + RepeatGap;
    }
  }

  /** Every selection keeps repeats of a suppressible kind apart. */
  lemma {:induction false} SelectSeparatesRepeats(history: seq<AnalyzeResult>, results: seq<AnalyzeResult>)
    ensures RepeatsSeparated(Select(history, results).0)
  {
    if |results| > 0 {
      var init := results[..|results| - 1];
      var before := Select(history, init);
      SelectSeparatesRepeats(history, init);
      SelectKeepsNewestFirst(history, init);
      var x := results[|results| - 1];
      if SignalNotInRecentList(before.1, x) {
        var p := before.0 + [x];
        forall k, l | 0 <= k < l < |p| && l - k <= HistoryLimit && SameKind(p[k], p[l]) &&
                      !NeverSuppressed(p[l].strategy) && p[k].eventNumber > 0
          ensures p[l].eventNumber > p[k].eventNumber + RepeatGap
        {
          if l == |before.0| {
            PassedAfterSeparated(history, before.0, before.1, x, k);
          }
        }
      }
    }
  }

  /** The outcome of `constructAndSendOpportunityList`: the signals that
      passed, the updated history, and whether a message was sent. */
  method ConstructAndSendOpportunityList(history: seq<AnalyzeResult>, results: seq<AnalyzeResult>)
    returns (passed: seq<AnalyzeResult>, newHistory: seq<AnalyzeResult>, sent: bool)
    ensures passed == Select(history, results).0
    ensures newHistory == Select(history, results).1
    ensures sent <==> |passed| > 0
    ensures |results| == 0 ==> !sent && newHistory == history
    ensures |history| <= HistoryLimit ==> |newHistory| <= HistoryLimit
    ensures multiset(passed) <= multiset(results)
    ensures newHistory == (Reversed(passed) + history)[..HistoryLength(|history|, |passed|)]
    ensures forall i :: 0 <= i < |results| && NeverSuppressed(results[i].strategy) ==> results[i] in passed
    ensures RepeatsSeparated(passed)
  {
    passed := [];
    newHistory := history;
    var i := 0;
    while i < |results|
      invariant 0 <= i <= |results|
      invariant passed == Select(history, results[..i]).0
      invariant newHistory == Select(history, results[..i]).1
    {
      var signal := results[i];
      SelectStep(history, results, i);
      if SignalNotInRecentList(newHistory, signal) {
        passed := passed + [signal];
        newHistory := PushToRecentSignals(newHistory, signal);
      }
      i := i + 1;
    }
    assert results[..i] == results;
    sent := |passed| > 0;
    SelectKeepsNewestFirst(history, results);
    SelectSeparatesRepeats(history, results);
    var idx := SelectKeepsOrder(history, results);
    forall i | 0 <= i < |results| && NeverSuppressed(results[i].strategy)
      ensures results[i] in passed
    {
      var k :| 0 <= k < |idx| && idx[k] == i;
      assert passed[k] == results[i];
    }
  }

  /** Selecting from one more result examines just that result against the
      history the earlier results left. */
  lemma SelectStep(history: seq<AnalyzeResult>, results: seq<AnalyzeResult>, i: nat)
    requires i < |results|
    ensures var before := Select(history, results[..i]);
      Select(history, results[..i + 1]) ==
        if SignalNotInRecentList(before.1, results[i])
        then (before.0 + [results[i]], PushToRecentSignals(before.1, results[i]))
        else before
  {
    assert results[..i + 1][..i] == results[..i];
  }
}
