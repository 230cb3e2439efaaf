/** The ranking of a session's opportunities: entries of the dominant
    symbol are carved out and always kept, the remaining pool is sorted by a
    weighted score, best first, and its head is kept.

    The carve-out loop removes the visited element from the array it is
    iterating over, so it visits only the entries at even positions of the
    original list: it removes all of them from the pool (keeping the dominant
    symbol's ones) and never looks at the entries at odd positions, which
    form the pool. */
module OpportunityFilter {
  import opened Types

  /** The weight of a timeframe in the score. */
  function TimeframeWeight(tf: Timeframe): (r: real)
    ensures 1.0 <= r <= 1.5
    ensures Minutes(tf) < 60 <==> r == 1.0
    ensures Minutes(tf) >= 720 <==> r == 1.5
  {
    match tf
    case OneHour => 1.1
    case TwoHour => 1.2
    case FourHour => 1.4
    case TwelveHour => 1.5
    case OneDay => 1.5
    case _ => 1.0
  }

  /** A longer timeframe never weighs less. */
  lemma WeightGrowsWithTimeframe(a: Timeframe, b: Timeframe)
    requires Minutes(a) <= Minutes(b)
    ensures TimeframeWeight(a) <= TimeframeWeight(b)
  {
  }

  /** The entry carries the two values its score is computed from. */
  predicate Scored(o: AnalyzeResult) {
    o.rsiValue.Some? && o.bollingerBandPercentage.Some?
  }

  predicate AllScored(s: seq<AnalyzeResult>) {
    forall x | x in s :: Scored(x)
  }

  /** The RSI measured toward the signal's side: its distance from 100 for a
      bullish entry, the value itself otherwise. */
  function DirectionalRsi(o: AnalyzeResult): real
    requires o.rsiValue.Some?
  {
    if o.direction == Bullish then 100.0 - o.rsiValue.value else o.rsiValue.value
  }

  /** The ranking score. */
  function Score(o: AnalyzeResult): real
    requires Scored(o)
  {
    DirectionalRsi(o) * o.bollingerBandPercentage.value * TimeframeWeight(o.timeFrame)
  }

  /** With equal band percentages and timeframes, a bullish entry with a
      lower RSI and a bearish entry with a higher RSI rank higher. */
  lemma ScoreFollowsRsi(a: AnalyzeResult, b: AnalyzeResult)
    requires Scored(a) && Scored(b)
    requires a.direction == b.direction && a.timeFrame == b.timeFrame
    requires a.bollingerBandPercentage == b.bollingerBandPercentage
    requires a.bollingerBandPercentage.value > 0.0
    ensures a.direction == Bullish ==> (Score(a) > Score(b) <==> a.rsiValue.value < b.rsiValue.value)
    ensures a.direction != Bullish ==> (Score(a) > Score(b) <==> a.rsiValue.value > b.rsiValue.value)
  {
    var k := a.bollingerBandPercentage.value * TimeframeWeight(a.timeFrame);
    assert k > 0.0;
    assert Score(a) == DirectionalRsi(a) * k;
    assert Score(b) == DirectionalRsi(b) * k;
    assert Score(a) - Score(b) == (DirectionalRsi(a) - DirectionalRsi(b)) * k;
    PositiveFactor(DirectionalRsi(a) - DirectionalRsi(b), k);
  }

  lemma PositiveFactor(a: real, k: real)
    requires k > 0.0
    ensures a * k > 0.0 <==> a > 0.0
  {
  }

  /** The outcome of the carve-out: the dominant symbol's entries and the
      ranking pool. */
  datatype Carved = Carved(dominant: seq<AnalyzeResult>, pool: seq<AnalyzeResult>)

  /** The carve-out loop as it runs: at visited index `k` the element is
      removed from `arr`, the index still advances, and the loop ends once
      the index reaches the array's current length. */
  function CarveLoop(arr: seq<AnalyzeResult>, k: nat, dominant: seq<AnalyzeResult>): Carved
    decreases |arr| - k
  {
    if k >= |arr| then Carved(dominant, arr)
    else
      var kept := if arr[k].symbol == DominantSymbol then dominant + [arr[k]] else dominant;
      CarveLoop(arr[..k] + arr[k + 1..], k + 1, kept)
  }

  /** The entries at even positions, in order. */
  function Evens(s: seq<AnalyzeResult>): (r: seq<AnalyzeResult>)
    ensures |r| == (|s| + 1) / 2
    ensures forall i :: 0 <= i < |r| ==> r[i] == s[2 * i]
  {
    if |s| == 0 then [] else if |s| == 1 then [s[0]] else [s[0]] + Evens(s[2..])
  }

  /** The entries at odd positions, in order. */
  function Odds(s: seq<AnalyzeResult>): (r: seq<AnalyzeResult>)
    ensures |r| == |s| / 2
    ensures forall i :: 0 <= i < |r| ==> r[i] == s[2 * i + 1]
  {
    if |s| < 2 then [] else [s[1]] + Odds(s[2..])
  }

  /** The entries of the dominant symbol, in order. */
  function OfDominant(s: seq<AnalyzeResult>): (r: seq<AnalyzeResult>)
    ensures forall i :: 0 <= i < |r| ==> r[i].symbol == DominantSymbol
    ensures multiset(r) <= multiset(s)
  {
    if |s| == 0 then []
    else
      assert s == [s[0]] + s[1..];
      if s[0].symbol == DominantSymbol then [s[0]] + OfDominant(s[1..]) else OfDominant(s[1..])
  }

  /** After the loop has kept the prefix `p` and is about to visit the rest
      `rest`, it keeps the odd positions of the rest and carves out the
      dominant entries among its even positions. */
  lemma {:induction false} CarveLoopSplitsRest(p: seq<AnalyzeResult>, rest: seq<AnalyzeResult>, dominant: seq<AnalyzeResult>)
    ensures CarveLoop(p + rest, |p|, dominant) == Carved(dominant + OfDominant(Evens(rest)), p + Odds(rest))
    decreases |rest|
  {
    var arr := p + rest;
    if |rest| == 0 {
      assert arr == p;
    } else {
      var x := rest[0];
      var kept := if x.symbol == DominantSymbol then dominant + [x] else dominant;
      var next := arr[..|p|] + arr[|p| + 1..];
      RemoveAtBoundary(p, rest);
      assert CarveLoop(arr, |p|, dominant) == CarveLoop(next, |p| + 1, kept);
      assert kept == dominant + OfDominant([x]) by {
        assert [x][1..] == [];
      }
      if |rest| == 1 {
        assert next == p + [];
        assert Evens(rest) == [x];
        assert Odds(rest) == [];
      } else {
        var rest' := rest[2..];
        assert next == (p + [rest[1]]) + rest';
        CarveLoopSplitsRest(p + [rest[1]], rest', kept);
        PositionsStep(rest);
        ConcatenationAssociates(p, [rest[1]], Odds(rest'));
        ConcatenationAssociates(dominant, OfDominant([x]), OfDominant(Evens(rest')));
      }
    }
  }

  /** Splitting off the first two entries. */
  lemma PositionsStep(s: seq<AnalyzeResult>)
    requires |s| >= 2
    ensures OfDominant(Evens(s)) == OfDominant([s[0]]) + OfDominant(Evens(s[2..]))
    ensures Odds(s) == [s[1]] + Odds(s[2..])
  {
    assert Evens(s) == [s[0]] + Evens(s[2..]);
    OfDominantOfConcatenation([s[0]], Evens(s[2..]));
  }

  lemma ConcatenationAssociates(a: seq<AnalyzeResult>, b: seq<AnalyzeResult>, c: seq<AnalyzeResult>)
    ensures (a + b) + c == a + (b + c)
  {
  }

  /** Removing the first element of `rest` from `p + rest`. */
  lemma RemoveAtBoundary(p: seq<AnalyzeResult>, rest: seq<AnalyzeResult>)
    requires |rest| >= 1
    ensures (p + rest)[|p|] == rest[0]
    ensures (p + rest)[..|p|] + (p + rest)[|p| + 1..] == p + rest[1..]
    ensures |rest| >= 2 ==> p + rest[1..] == (p + [rest[1]]) + rest[2..]
  {
    assert (p + rest)[..|p|] == p;
    assert (p + rest)[|p| + 1..] == rest[1..];
    if |rest| >= 2 {
      assert rest[1..] == [rest[1]] + rest[2..];
    }
  }

  lemma {:induction false} OfDominantOfConcatenation(a: seq<AnalyzeResult>, b: seq<AnalyzeResult>)
    ensures OfDominant(a + b) == OfDominant(a) + OfDominant(b)
  {
    if |a| == 0 {
      assert a + b == b;
    } else {
      assert (a + b)[1..] == a[1..] + b;
      OfDominantOfConcatenation(a[1..], b);
    }
  }

  /** The carve-out of the whole list. */
  function CarveOut(list: seq<AnalyzeResult>): (r: Carved)
    ensures r == Carved(OfDominant(Evens(list)), Odds(list))
    ensures AllScored(list) ==> AllScored(r.pool)
  {
    OddsScored(list);
    CarveLoopSplitsRest([], list, []);
    assert [] + list == list;
    CarveLoop(list, 0, [])
  }

  /** Non-increasing in score. */
  predicate Descending(s: seq<AnalyzeResult>)
    requires AllScored(s)
  {
    forall i, j :: 0 <= i < j < |s| ==> Score(s[i]) >= Score(s[j])
  }

  /** Inserts `x` before the first entry that does not score higher, so
      entries with equal scores keep their relative order. */
  function Insert(x: AnalyzeResult, s: seq<AnalyzeResult>): (r: seq<AnalyzeResult>)
    requires Scored(x) && AllScored(s)
    requires Descending(s)
    ensures AllScored(r) && Descending(r)
    ensures multiset(r) == multiset(s) + multiset{x}
    ensures |r| == |s| + 1
    ensures |s| == 0 ==> r == [x]
    ensures |s| > 0 && Score(s[0]) <= Score(x) ==> r[0] == x
    ensures |s| > 0 && Score(s[0]) > Score(x) ==> r[0] == s[0]
  {
    if |s| == 0 || Score(s[0]) <= Score(x) then
      DescendingCons(x, s);
      [x] + s
    else
      HeadTail(s);
      var tail := Insert(x, s[1..]);
      DescendingCons(s[0], tail);
      [s[0]] + tail
  }

  /** A list is its head followed by its tail; the tail of a descending
      list is descending and starts no higher than the head. */
  lemma HeadTail(s: seq<AnalyzeResult>)
    requires |s| > 0 && AllScored(s)
    ensures s == [s[0]] + s[1..]
    ensures multiset(s) == multiset{s[0]} + multiset(s[1..])
    ensures AllScored(s[1..])
    ensures Descending(s) ==> Descending(s[1..]) && (|s| > 1 ==> Score(s[0]) >= Score(s[1]))
  {
    assert s == [s[0]] + s[1..];
    assert forall x | x in s[1..] :: x in s;
    if Descending(s) {
      assert forall i :: 0 <= i < |s| - 1 ==> s[1..][i] == s[i + 1];
    }
  }

  /** An entry scoring at least as high as the head of a descending list
      can go in front of it. */
  lemma DescendingCons(x: AnalyzeResult, s: seq<AnalyzeResult>)
    requires Scored(x) && AllScored(s) && Descending(s)
    requires |s| > 0 ==> Score(x) >= Score(s[0])
    ensures AllScored([x] + s) && Descending([x] + s)
  {
    var r := [x] + s;
    assert forall i :: 1 <= i < |r| ==> r[i] == s[i - 1];
    assert forall y | y in r :: y == x || y in s;
  }

  /** The ranking sort (a stable descending sort). */
  function Rank(s: seq<AnalyzeResult>): (r: seq<AnalyzeResult>)
    requires AllScored(s)
    ensures AllScored(r) && Descending(r)
    ensures multiset(r) == multiset(s)
    ensures |r| == |s|
  {
    if |s| == 0 then []
    else
      HeadTail(s);
      Insert(s[0], Rank(s[1..]))
  }

  /** The head of the ranked pool: `splice(0, limit)` after the sort. */
  function Best(pool: seq<AnalyzeResult>, limit: nat): (r: seq<AnalyzeResult>)
    requires AllScored(pool)
    ensures |r| == if limit < |pool| then limit else |pool|
    ensures AllScored(r) && Descending(r)
    ensures multiset(r) <= multiset(pool)
    ensures r == Rank(pool)[..|r|]
  {
    var ranked := Rank(pool);
    var n := if limit < |ranked| then limit else |ranked|;
    SplitAt(ranked, n);
    DescendingPrefix(ranked, n);
    ranked[..n]
  }

  /** `filterBestOpportunities`: the carved-out entries followed by the
      best `limit` entries of the pool. */
  function FilterBestOpportunities(list: seq<AnalyzeResult>, limit: nat): (r: seq<AnalyzeResult>)
    requires AllScored(list)
    ensures |r| == |CarveOut(list).dominant| + (if limit < |list| / 2 then limit else |list| / 2)
    ensures r[..|CarveOut(list).dominant|] == CarveOut(list).dominant
    ensures forall i :: 0 <= i < |CarveOut(list).dominant| ==> r[i].symbol == DominantSymbol
    ensures AllScored(r[|CarveOut(list).dominant|..]) && Descending(r[|CarveOut(list).dominant|..])
    ensures multiset(r[|CarveOut(list).dominant|..]) <= multiset(Odds(list))
  {
    var carved := CarveOut(list);
    var best := Best(carved.pool, limit);
    ConcatParts(carved.dominant, best);
    carved.dominant + best
  }

  lemma ConcatParts(a: seq<AnalyzeResult>, b: seq<AnalyzeResult>)
    ensures (a + b)[..|a|] == a && (a + b)[|a|..] == b
  {
  }

  /** A list is its prefix followed by the rest, entry for entry. */
  lemma SplitAt(s: seq<AnalyzeResult>, n: nat)
    requires n <= |s|
    ensures s == s[..n] + s[n..]
    ensures multiset(s) == multiset(s[..n]) + multiset(s[n..])
  {
    assert s == s[..n] + s[n..];
  }

  /** A prefix of a descending sequence is descending. */
  lemma DescendingPrefix(s: seq<AnalyzeResult>, n: nat)
    requires AllScored(s) && Descending(s)
    requires n <= |s|
    ensures AllScored(s[..n]) && Descending(s[..n])
  {
    assert forall i :: 0 <= i < n ==> s[..n][i] == s[i];
  }

  /** Every list splits into its even and its odd positions. */
  lemma {:induction false} EvensOddsPartition(s: seq<AnalyzeResult>)
    ensures multiset(Evens(s)) + multiset(Odds(s)) == multiset(s)
  {
    if |s| >= 2 {
      EvensOddsPartition(s[2..]);
      PositionsOfFirstTwo(s);
    } else if |s| == 1 {
      assert s == [s[0]];
    }
  }

  /** The first two entries go one to the even and one to the odd
      positions; the rest splits as a list of its own. */
  lemma PositionsOfFirstTwo(s: seq<AnalyzeResult>)
    requires |s| >= 2
    ensures multiset(Evens(s)) == multiset{s[0]} + multiset(Evens(s[2..]))
    ensures multiset(Odds(s)) == multiset{s[1]} + multiset(Odds(s[2..]))
    ensures multiset(s) == multiset{s[0]} + multiset{s[1]} + multiset(s[2..])
  {
    assert Evens(s) == [s[0]] + Evens(s[2..]);
    assert Odds(s) == [s[1]] + Odds(s[2..]);
    FirstTwo(s);
  }

  lemma FirstTwo(s: seq<AnalyzeResult>)
    requires |s| >= 2
    ensures multiset(s) == multiset{s[0]} + multiset{s[1]} + multiset(s[2..])
  {
    assert s == [s[0]] + [s[1]] + s[2..];
  }

  /** Every entry at an even position is an entry of the list. */
  lemma EvensAreEntries(s: seq<AnalyzeResult>)
    ensures forall x | x in Evens(s) :: x in s
  {
    var e := Evens(s);
    forall x | x in e
      ensures x in s
    {
      var i :| 0 <= i < |e| && e[i] == x;
      assert s[2 * i] == x;
    }
  }

  /** The pool of a fully scored list is fully scored. */
  lemma OddsScored(s: seq<AnalyzeResult>)
    ensures AllScored(s) ==> AllScored(Odds(s))
  {
    var o := Odds(s);
    if AllScored(s) {
      forall x | x in o
        ensures Scored(x)
      {
        var i :| 0 <= i < |o| && o[i] == x;
        assert s[2 * i + 1] in s;
      }
    }
  }

  lemma OfDominantOfEvens(s: seq<AnalyzeResult>)
    ensures multiset(OfDominant(Evens(s))) + multiset(Odds(s)) <= multiset(s)
  {
    EvensOddsPartition(s);
  }

  /** The kept pool entries are the best of the pool: every kept entry
      scores at least as high as every pool entry left out. */
  lemma KeptEntriesBeatTheRest(list: seq<AnalyzeResult>, limit: nat)
    requires AllScored(list)
    ensures var d := |CarveOut(list).dominant|;
      var r := FilterBestOpportunities(list, limit);
      var ranked := Rank(CarveOut(list).pool);
      && r[d..] == ranked[..|r| - d]
      && forall i, j :: d <= i < |r| && |r| - d <= j < |ranked| ==> Score(r[i]) >= Score(ranked[j])
  {
    var carved := CarveOut(list);
    var d := |carved.dominant|;
    var ranked := Rank(carved.pool);
    var best := Best(carved.pool, limit);
    var r := FilterBestOpportunities(list, limit);
    ConcatParts(carved.dominant, best);
    BestBeatsTheRest(carved.pool, limit);
  }

  /** Every entry of the head of the ranking scores at least as high as
      every entry after it. */
  lemma BestBeatsTheRest(pool: seq<AnalyzeResult>, limit: nat)
    requires AllScored(pool)
    ensures var best := Best(pool, limit);
      var ranked := Rank(pool);
      forall i, j :: 0 <= i < |best| <= j < |ranked| ==> Score(best[i]) >= Score(ranked[j])
  {
    var best := Best(pool, limit);
    var ranked := Rank(pool);
    forall i, j | 0 <= i < |best| <= j < |ranked|
      ensures Score(best[i]) >= Score(ranked[j])
    {
      assert best[i] == ranked[i];
    }
  }

  /** The carve-out never looks at odd positions, and removes every even
      position from the pool: a list without the dominant symbol loses its
      even-position entries entirely. */
  lemma EvenPositionsNeverRanked(list: seq<AnalyzeResult>, limit: nat)
    requires AllScored(list)
    requires forall x | x in list :: x.symbol != DominantSymbol
    ensures |CarveOut(list).dominant| == 0
    ensures multiset(FilterBestOpportunities(list, limit)) <= multiset(Odds(list))
  {
    EvensAreEntries(list);
    NoDominantEntries(Evens(list));
    var r := FilterBestOpportunities(list, limit);
    assert r[0..] == r;
  }

  lemma {:induction false} NoDominantEntries(s: seq<AnalyzeResult>)
    requires forall x | x in s :: x.symbol != DominantSymbol
    ensures OfDominant(s) == []
  {
    if |s| > 0 {
      assert s[0] in s;
      NoDominantEntries(s[1..]);
    }
  }
}
