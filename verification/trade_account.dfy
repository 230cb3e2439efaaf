/** The small pieces of account bookkeeping: the stack of recent order
    outcomes, the list of symbols that recently lost, the balance check, the
    count of visible orders and the checks for existing orders. */
module TradeAccount {
  import opened Types
  import TradeLevels

  /** The status stack is cut back once it grows past this length... */
  const StatusStackLimit: nat := 10
  /** ...to this many entries. */
  const StatusStackKeep: nat := 9

  /** `pushToRecentOrderStatusStack`: the newest outcome goes first; a stack
      that grows past ten entries keeps only its nine newest. */
  function PushToRecentOrderStatusStack(stack: seq<OrderStatus>, status: OrderStatus): (r: seq<OrderStatus>)
    ensures |r| == if |stack| + 1 > StatusStackLimit then StatusStackKeep else |stack| + 1
    ensures |r| <= StatusStackLimit
    ensures r[0] == status
    ensures r[1..] <= stack
  {
    var pushed := [status] + stack;
    if |pushed| > StatusStackLimit then pushed[..StatusStackKeep] else pushed
  }

  /** The first `n` entries of the stack after a push are the outcome just
      pushed followed by the `n - 1` newest entries before it. */
  lemma PushKeepsNewestOutcomes(stack: seq<OrderStatus>, status: OrderStatus, n: nat)
    requires n <= StatusStackKeep && n <= |stack| + 1
    ensures PushToRecentOrderStatusStack(stack, status)[..n] == ([status] + stack)[..n]
  {
  }

  predicate NoDuplicates<T(==)>(s: seq<T>) {
    forall i, j :: 0 <= i < j < |s| ==> s[i] != s[j]
  }

  /** JavaScript's `indexOf`: the first position of `x`, or -1. */
  function IndexOf<T(==)>(s: seq<T>, x: T): (r: int)
    ensures -1 <= r < |s|
    ensures r == -1 <==> x !in s
    ensures r >= 0 ==> s[r] == x && x !in s[..r]
  {
    if |s| == 0 then -1
    else if s[0] == x then 0
    else
      var rest := IndexOf(s[1..], x);
      if rest == -1 then -1
      else
        assert s[..rest + 1] == [s[0]] + s[1..][..rest];
        rest + 1
  }

  /** `hasRecentlyLost`. */
  predicate HasRecentlyLost(lost: seq<string>, symbol: string) {
    symbol in lost
  }

  /** `removeFromRecentlyLostSymbolList`: the symbol is dropped only when it
      is found at a position greater than zero, so the oldest entry of the
      list is never dropped. */
  function RemoveFromRecentlyLostSymbolList(lost: seq<string>, symbol: string): (r: seq<string>)
    ensures symbol !in lost || lost[0] == symbol ==> r == lost
    ensures symbol in lost && lost[0] != symbol ==>
      var i := IndexOf(lost, symbol);
      r == lost[..i] + lost[i + 1..]
    ensures forall x | x in r :: x in lost
    ensures forall x | x in lost && x != symbol :: x in r
  {
    var i := IndexOf(lost, symbol);
    if i > 0 then lost[..i] + lost[i + 1..] else lost
  }

  /** `addToRecentlyLostSymbolList`: appended unless already listed. */
  function AddToRecentlyLostSymbolList(lost: seq<string>, symbol: string): (r: seq<string>)
    ensures symbol in r
    ensures symbol in lost ==> r == lost
    ensures symbol !in lost ==> r == lost + [symbol]
  {
    if symbol in lost then lost else lost + [symbol]
  }

  /** Both list updates keep the list free of duplicates. */
  lemma LostListStaysDuplicateFree(lost: seq<string>, symbol: string)
    requires NoDuplicates(lost)
    ensures NoDuplicates(AddToRecentlyLostSymbolList(lost, symbol))
    ensures NoDuplicates(RemoveFromRecentlyLostSymbolList(lost, symbol))
  {
    var i := IndexOf(lost, symbol);
    if i > 0 {
      var r := lost[..i] + lost[i + 1..];
      forall a, b | 0 <= a < b < |r|
        ensures r[a] != r[b]
      {
        var a' := if a < i then a else a + 1;
        var b' := if b < i then b else b + 1;
        assert r[a] == lost[a'] && r[b] == lost[b'];
      }
    }
  }

  /** On a duplicate-free list a winning trade clears its symbol from the
      list exactly when the symbol is not the list's oldest entry. */
  lemma WinClearsSymbolUnlessOldest(lost: seq<string>, symbol: string)
    requires NoDuplicates(lost)
    ensures symbol in RemoveFromRecentlyLostSymbolList(lost, symbol) <==> |lost| > 0 && lost[0] == symbol
  {
    var i := IndexOf(lost, symbol);
    if i > 0 {
      var r := lost[..i] + lost[i + 1..];
      forall j | 0 <= j < |r|
        ensures r[j] != symbol
      {
        if j < i {
          assert r[j] == lost[..i][j];
        } else {
          assert r[j] == lost[j + 1];
        }
      }
    }
  }

  /** The oldest lost symbol stays listed after a win: a loss followed by a
      win on a symbol that was the only loser leaves it listed. */
  lemma OnlyLoserStaysListedAfterWin(symbol: string)
    ensures RemoveFromRecentlyLostSymbolList(AddToRecentlyLostSymbolList([], symbol), symbol) == [symbol]
  {
  }

  /** A loss followed by a win on a symbol that was not listed restores the
      list, provided some other symbol was listed before. */
  lemma LossThenWinRestoresList(lost: seq<string>, symbol: string)
    requires |lost| > 0 && symbol !in lost
    ensures RemoveFromRecentlyLostSymbolList(AddToRecentlyLostSymbolList(lost, symbol), symbol) == lost
  {
    var added := lost + [symbol];
    assert IndexOf(added, symbol) == |lost| by {
      assert added[|lost|] == symbol;
      assert added[..|lost|] == lost;
    }
  }

  /** `balanceIsEnough`: strictly more than one order's amount. */
  predicate BalanceIsEnough(balance: real) {
    balance > TradeLevels.MinTradeAmountUsd
  }

  /** The number of orders that are not hidden. */
  function VisibleCount(orders: seq<PaperTrade>): (r: nat)
    ensures r <= |orders|
  {
    if |orders| == 0 then 0
    else VisibleCount(orders[..|orders| - 1]) + (if orders[|orders| - 1].isHiddenTrade then 0 else 1)
  }

  lemma {:induction false} VisibleCountOfConcatenation(a: seq<PaperTrade>, b: seq<PaperTrade>)
    ensures VisibleCount(a + b) == VisibleCount(a) + VisibleCount(b)
    decreases |b|
  {
    if |b| == 0 {
      assert a + b == a;
    } else {
      assert (a + b)[..|a + b| - 1] == a + b[..|b| - 1];
      VisibleCountOfConcatenation(a, b[..|b| - 1]);
    }
  }

  /** Removing one order lowers the visible count by one exactly when that
      order was visible. */
  lemma VisibleCountWithout(orders: seq<PaperTrade>, i: nat)
    requires i < |orders|
    ensures VisibleCount(orders[..i] + orders[i + 1..]) ==
      VisibleCount(orders) - (if orders[i].isHiddenTrade then 0 else 1)
  {
    var a := orders[..i];
    var b := orders[i + 1..];
    var one := [orders[i]];
    var tail := orders[i..];
    assert orders == a + tail;
    assert tail == one + b by {
      assert |tail| == |one + b|;
      forall k | 0 <= k < |tail|
        ensures tail[k] == (one + b)[k]
      {
        if k > 0 { assert tail[k] == b[k - 1]; }
      }
    }
    VisibleCountOfConcatenation(a, tail);
    VisibleCountOfConcatenation(one, b);
    VisibleCountOfConcatenation(a, b);
    assert VisibleCount(one) == (if orders[i].isHiddenTrade then 0 else 1) by {
      assert one[..0] == [];
    }
  }

  /** `hasAvailableTradeSlot`: a hidden order always has a slot; a visible
      one needs fewer visible active orders than the limit. The visible
      active orders are counted one by one. */
  method HasAvailableTradeSlot(trade: PaperTrade, active: seq<PaperTrade>, limit: int) returns (r: bool)
    ensures r <==> trade.isHiddenTrade || VisibleCount(active) < limit
  {
    if trade.isHiddenTrade {
      return true;
    }
    var count := 0;
    var i := 0;
    while i < |active|
      invariant 0 <= i <= |active|
      invariant count == VisibleCount(active[..i])
    {
      assert active[..i + 1][..i] == active[..i];
      if !active[i].isHiddenTrade {
        count := count + 1;
      }
      i := i + 1;
    }
    assert active[..|active|] == active;
    return count < limit;
  }

  /** `hasPendingSellOrder` / `hasPendingBuyOrder`: some visible order of
      the symbol, on any timeframe. */
  function HasPendingOrder(orders: seq<PaperTrade>, symbol: string): (r: bool)
    ensures r <==> exists i :: 0 <= i < |orders| && orders[i].symbol == symbol && !orders[i].isHiddenTrade
  {
    if |orders| == 0 then false
    else
      var last := orders[|orders| - 1];
      var earlier := HasPendingOrder(orders[..|orders| - 1], symbol);
      assert forall i :: 0 <= i < |orders| - 1 ==> orders[..|orders| - 1][i] == orders[i];
      earlier || (last.symbol == symbol && !last.isHiddenTrade)
  }

  /** `makeAllPendingOrdersHidden` (flag true) and
      `makeAllPendingOrdersVisible` (flag false). */
  function SetHidden(orders: seq<PaperTrade>, flag: bool): (r: seq<PaperTrade>)
    ensures |r| == |orders|
    ensures forall i :: 0 <= i < |r| ==> r[i] == orders[i].(isHiddenTrade := flag)
  {
    if |orders| == 0 then []
    else SetHidden(orders[..|orders| - 1], flag) + [orders[|orders| - 1].(isHiddenTrade := flag)]
  }

  /** Hiding every order leaves none visible, revealing them leaves all
      visible, and no order is then pending for any symbol, or every
      order's symbol is, respectively. */
  lemma {:induction false} VisibilityAfterSetHidden(orders: seq<PaperTrade>, symbol: string)
    ensures VisibleCount(SetHidden(orders, true)) == 0
    ensures VisibleCount(SetHidden(orders, false)) == |orders|
    ensures !HasPendingOrder(SetHidden(orders, true), symbol)
    ensures HasPendingOrder(SetHidden(orders, false), symbol) <==>
      exists i :: 0 <= i < |orders| && orders[i].symbol == symbol
  {
    VisibleCountAfterSetHidden(orders, true);
    VisibleCountAfterSetHidden(orders, false);
    var shown := SetHidden(orders, false);
    forall i | 0 <= i < |orders|
      ensures shown[i].symbol == orders[i].symbol && !shown[i].isHiddenTrade
    {
      var t := orders[i].(isHiddenTrade := false);
      assert shown[i] == t;
    }
  }

  /** Setting every flag one way leaves no order visible or every order
      visible. */
  lemma {:induction false} VisibleCountAfterSetHidden(orders: seq<PaperTrade>, flag: bool)
    ensures VisibleCount(SetHidden(orders, flag)) == if flag then 0 else |orders|
    decreases |orders|
  {
    if |orders| > 0 {
      VisibleCountAfterSetHidden(orders[..|orders| - 1], flag);
      var r := SetHidden(orders, flag);
      assert r[..|orders| - 1] == SetHidden(orders[..|orders| - 1], flag);
    }
  }
}
