/** The paper-trading order book: pending buy orders become active orders
    when the price reaches them, active orders are sold on a stop, on age or
    on a bearish signal, and a run of losses pauses the placing of visible
    orders until a run of wins resumes it.

    Hidden orders are simulated alongside visible ones but never move the
    balance or the counters. Clocks become a `now` parameter (milliseconds),
    the price rounding a parameter `round`, and the broadcast latest prices a
    chart with at least one row per symbol. */
module PaperTradeBook {
  import opened Types
  import opened TradeLevels
  import opened TradeAccount
  import ChartSchedule

  const DefaultActiveOrderLimit: int := 3
  /** The active-order limit after a divergence signal on the dominant
      symbol. */
  const BoostedActiveOrderLimit: int := 10
  /** Orders are placed while the per-call count is at most this. */
  const SessionOrderPlaceLimit: nat := 1
  /** The status stack must hold more entries than this before trading is
      paused or resumed. */
  const DecisionDepth: nat := 3

  /** The engine's memory: the account, the two order lists, the list of
      symbols that recently lost, the pause flag and the outcome stack. */
  datatype Book = Book(
    balance: real,
    profitTradeCount: int,
    totalTradeCount: int,
    totalProfit: real,
    pendingBuys: seq<PaperTrade>,
    active: seq<PaperTrade>,
    recentlyLost: seq<string>,
    placingAllowed: bool,
    statusStack: seq<OrderStatus>,
    activeOrderLimit: int)

  /** What every operation keeps: the win count never exceeds the trade
      count, the outcome stack holds at most ten entries and no symbol is
      listed twice as recently lost. */
  predicate BookInv(b: Book) {
    && 0 <= b.profitTradeCount <= b.totalTradeCount
    && |b.statusStack| <= StatusStackLimit
    && NoDuplicates(b.recentlyLost)
  }

  /** The money the account started with: the balance, plus the amount tied
      up in visible active orders, minus the profit made so far. Every
      operation keeps it. */
  function Capital(b: Book): real {
    b.balance - b.totalProfit + MinTradeAmountUsd * VisibleCount(b.active) as real
  }

  /** The two lists hold the same orders apart from their hidden flags. */
  predicate SameApartFromHiding(a: seq<PaperTrade>, c: seq<PaperTrade>) {
    |a| == |c| && forall i :: 0 <= i < |a| ==> c[i] == a[i].(isHiddenTrade := c[i].isHiddenTrade)
  }

  /** How a visible closed trade is reported. */
  datatype Exit = HitStopProfit | HitStopLoss | SoldWithNoLoss | SoldWithLoss

  /** The report chosen for a closed trade, by its last price. */
  function ExitOf(t: PaperTrade): (r: Exit)
    ensures r == HitStopProfit <==> t.currentPrice >= t.stopProfit
    ensures r == HitStopLoss <==> t.stopProfit > t.currentPrice && t.currentPrice <= t.stopLoss
    ensures r == SoldWithNoLoss <==> t.stopLoss < t.currentPrice < t.stopProfit && t.currentPrice >= t.zeroLossLimit
    ensures r == SoldWithLoss <==> t.stopLoss < t.currentPrice < t.stopProfit && t.currentPrice < t.zeroLossLimit
  {
    if t.currentPrice >= t.stopProfit then HitStopProfit
    else if t.currentPrice <= t.stopLoss then HitStopLoss
    else if t.currentPrice >= t.zeroLossLimit then SoldWithNoLoss
    else SoldWithLoss
  }

  /** The part of `sellActiveOrder` before the pause check: record the
      outcome (a win clears the symbol from the lost list, a loss lists it),
      drop the order from the active list and, for a visible order, credit
      the sale and count the trade. */
  function CloseTrade(b: Book, i: nat, round: real -> real): (r: Book)
    requires i < |b.active|
    requires BookInv(b)
    ensures r.active == b.active[..i] + b.active[i + 1..]
    ensures r.pendingBuys == b.pendingBuys && r.placingAllowed == b.placingAllowed
    ensures r.activeOrderLimit == b.activeOrderLimit
    ensures b.active[i].currentPrice >= b.active[i].stopProfit ==>
      && r.statusStack == PushToRecentOrderStatusStack(b.statusStack, Success)
      && r.recentlyLost == RemoveFromRecentlyLostSymbolList(b.recentlyLost, b.active[i].symbol)
    ensures b.active[i].stopProfit > b.active[i].currentPrice && b.active[i].currentPrice <= b.active[i].stopLoss ==>
      && r.statusStack == PushToRecentOrderStatusStack(b.statusStack, Failed)
      && r.recentlyLost == AddToRecentlyLostSymbolList(b.recentlyLost, b.active[i].symbol)
    ensures b.active[i].stopLoss < b.active[i].currentPrice < b.active[i].stopProfit ==>
      r.statusStack == b.statusStack && r.recentlyLost == b.recentlyLost
    ensures b.active[i].isHiddenTrade ==>
      && r.balance == b.balance && r.totalProfit == b.totalProfit
      && r.totalTradeCount == b.totalTradeCount && r.profitTradeCount == b.profitTradeCount
    ensures !b.active[i].isHiddenTrade ==>
      var proceeds := b.active[i].amount * b.active[i].currentPrice;
      r.balance == b.balance + round(proceeds)
    ensures !b.active[i].isHiddenTrade ==> r.totalTradeCount == b.totalTradeCount + 1
    ensures !b.active[i].isHiddenTrade ==>
      (r.profitTradeCount == b.profitTradeCount + 1 <==> b.active[i].currentPrice >= b.active[i].stopProfit)
    ensures BookInv(r)
    ensures Capital(r) == Capital(b)
  {
    var t := b.active[i];
    var profitHit := t.currentPrice >= t.stopProfit;
    var lossHit := t.currentPrice <= t.stopLoss;
    LostListStaysDuplicateFree(b.recentlyLost, t.symbol);
    var lost :=
      if profitHit then RemoveFromRecentlyLostSymbolList(b.recentlyLost, t.symbol)
      else if lossHit then AddToRecentlyLostSymbolList(b.recentlyLost, t.symbol)
      else b.recentlyLost;
    var stack :=
      if profitHit then PushToRecentOrderStatusStack(b.statusStack, Success)
      else if lossHit then PushToRecentOrderStatusStack(b.statusStack, Failed)
      else b.statusStack;
    var proceeds := b.active[i].amount * b.active[i].currentPrice;
    var sold := round(proceeds);
    var active := b.active[..i] + b.active[i + 1..];
    VisibleCountWithout(b.active, i);
    if t.isHiddenTrade then
      b.(recentlyLost := lost, statusStack := stack, active := active)
    else
      b.(recentlyLost := lost, statusStack := stack, active := active,
         profitTradeCount := b.profitTradeCount + (if profitHit then 1 else 0),
         totalTradeCount := b.totalTradeCount + 1,
         totalProfit := b.totalProfit + (sold - MinTradeAmountUsd),
         balance := b.balance + sold)
  }

  /** The flag `pauseOrResumePlacingNewOrders` leaves behind, before any
      order it sells: with more than three outcomes recorded, allowed
      trading pauses on a newest loss and paused trading resumes on three
      newest wins. */
  function NextPlacingAllowed(allowed: bool, stack: seq<OrderStatus>): (r: bool)
    ensures |stack| <= DecisionDepth ==> r == allowed
    ensures |stack| > DecisionDepth && allowed ==> (r <==> stack[0] != Failed)
    ensures |stack| > DecisionDepth && !allowed ==>
      (r <==> forall j :: 0 <= j < DecisionDepth ==> stack[j] == Success)
  {
    if |stack| > DecisionDepth then
      if allowed then stack[0] != Failed
      else stack[0] == Success && stack[1] == Success && stack[2] == Success
    else allowed
  }

  /** Trading is about to be paused. */
  predicate Pausing(b: Book) {
    b.placingAllowed && !NextPlacingAllowed(b.placingAllowed, b.statusStack)
  }

  /** `sellActiveOrder`: close the trade, then check whether to pause or
      resume. */
  function SellActiveOrder(b: Book, i: nat, round: real -> real): (r: Book)
    requires i < |b.active|
    requires BookInv(b)
    ensures |r.active| < |b.active|
    ensures forall x | x in r.active :: x in b.active
    ensures SameApartFromHiding(b.pendingBuys, r.pendingBuys)
    ensures r.activeOrderLimit == b.activeOrderLimit
    ensures BookInv(r)
    ensures Capital(r) == Capital(b)
    decreases |b.active|, 0, 0
  {
    PauseOrResume(CloseTrade(b, i, round), round)
  }

  /** `pauseOrResumePlacingNewOrders`. Pausing hides every pending buy and
      then runs the sell-everything loop; resuming reveals every pending
      buy. The deferred part of pausing is taken to run at once. */
  function PauseOrResume(b: Book, round: real -> real): (r: Book)
    requires BookInv(b)
    ensures |r.active| <= |b.active|
    ensures forall x | x in r.active :: x in b.active
    ensures SameApartFromHiding(b.pendingBuys, r.pendingBuys)
    ensures r.activeOrderLimit == b.activeOrderLimit
    ensures BookInv(r)
    ensures Capital(r) == Capital(b)
    ensures !Pausing(b) ==> r.active == b.active && r.balance == b.balance
    ensures !Pausing(b) ==> r.placingAllowed == NextPlacingAllowed(b.placingAllowed, b.statusStack)
    ensures !Pausing(b) && r.placingAllowed != b.placingAllowed ==> VisibleCount(r.pendingBuys) == |b.pendingBuys|
    ensures !Pausing(b) && r.placingAllowed == b.placingAllowed ==> r == b
    ensures Pausing(b) && |b.active| > 0 ==> |r.active| < |b.active|
    ensures Pausing(b) && |b.active| == 0 ==> !r.placingAllowed && VisibleCount(r.pendingBuys) == 0
    decreases |b.active|, 2, 0
  {
    if Pausing(b) then Pause(b, round)
    else if NextPlacingAllowed(b.placingAllowed, b.statusStack) != b.placingAllowed then
      VisibleCountAfterSetHidden(b.pendingBuys, false);
      b.(placingAllowed := true, pendingBuys := SetHidden(b.pendingBuys, false))
    else b
  }

  /** The pausing branch: clear the flag, hide every pending buy, then sell
      through the active list. */
  function Pause(b: Book, round: real -> real): (r: Book)
    requires BookInv(b)
    ensures |r.active| <= |b.active|
    ensures |b.active| > 0 ==> |r.active| < |b.active|
    ensures |b.active| == 0 ==> !r.placingAllowed && VisibleCount(r.pendingBuys) == 0
    ensures forall x | x in r.active :: x in b.active
    ensures SameApartFromHiding(b.pendingBuys, r.pendingBuys)
    ensures r.activeOrderLimit == b.activeOrderLimit
    ensures BookInv(r)
    ensures Capital(r) == Capital(b)
    decreases |b.active|, 1, |b.active| + 1
  {
    var hidden := b.(placingAllowed := false, pendingBuys := SetHidden(b.pendingBuys, true));
    VisibleCountAfterSetHidden(b.pendingBuys, true);
    var r := SellAll(hidden, 0, round);
    SameApartFromHidingChains(b.pendingBuys, hidden.pendingBuys, r.pendingBuys);
    r
  }

  lemma SameApartFromHidingChains(a: seq<PaperTrade>, b: seq<PaperTrade>, c: seq<PaperTrade>)
    requires SameApartFromHiding(a, b) && SameApartFromHiding(b, c)
    ensures SameApartFromHiding(a, c)
  {
    forall i | 0 <= i < |a|
      ensures c[i] == a[i].(isHiddenTrade := c[i].isHiddenTrade)
    {
      assert b[i] == a[i].(isHiddenTrade := b[i].isHiddenTrade);
    }
  }

  /** `immediatelySellActiveOrders`: JavaScript's `forEach` over the active
      list while each visit removes the visited order, so the index moves
      past the order that slid into the freed place. */
  function SellAll(b: Book, k: nat, round: real -> real): (r: Book)
    requires BookInv(b)
    ensures |r.active| <= |b.active|
    ensures k < |b.active| ==> |r.active| < |b.active|
    ensures k >= |b.active| ==> r == b
    ensures forall x | x in r.active :: x in b.active
    ensures SameApartFromHiding(b.pendingBuys, r.pendingBuys)
    ensures r.activeOrderLimit == b.activeOrderLimit
    ensures BookInv(r)
    ensures Capital(r) == Capital(b)
    decreases |b.active|, 1, |b.active| - k
  {
    if k < |b.active| then
      var next := SellActiveOrder(b, k, round);
      var r := SellAll(next, k + 1, round);
      SameApartFromHidingChains(b.pendingBuys, next.pendingBuys, r.pendingBuys);
      r
    else b
  }

  /** The entries at odd positions: what the sell-everything loop leaves. */
  function OddPositions(s: seq<PaperTrade>): (r: seq<PaperTrade>)
    ensures |r| == |s| / 2
    ensures forall j :: 0 <= j < |r| ==> r[j] == s[2 * j + 1]
    decreases |s|
  {
    if |s| < 2 then [] else [s[1]] + OddPositions(s[2..])
  }

  /** None of the orders the sell-everything loop sells from position `k`
      on (those at an even distance from `k`) has reached its stop-profit. */
  predicate SoldBelowStopProfit(active: seq<PaperTrade>, k: nat) {
    forall j :: k <= j < |active| && (j - k) % 2 == 0 ==> active[j].currentPrice < active[j].stopProfit
  }

  /** While trading is paused with a newest loss on the stack and no sold
      order reaches its stop-profit, no sale resumes trading: the flag stays
      cleared, the pending buys stay as they are, and the loop from `k`
      leaves the orders before `k` and every second order from `k` on. */
  lemma {:induction false} SellAllWhilePaused(b: Book, k: nat, round: real -> real)
    requires BookInv(b) && !b.placingAllowed
    requires |b.statusStack| > 0 && b.statusStack[0] == Failed
    requires k <= |b.active| && SoldBelowStopProfit(b.active, k)
    ensures var r := SellAll(b, k, round);
      && !r.placingAllowed
      && r.pendingBuys == b.pendingBuys
      && r.active == b.active[..k] + OddPositions(b.active[k..])
    decreases |b.active| - k
  {
    if k < |b.active| {
      var closed := SellBelowStopProfitWhilePaused(b, k, round);
      OddPositionsAfterRemoval(b.active, k);
      if k + 1 <= |closed.active| {
        SoldAfterRemoval(b.active, k);
        SellAllWhilePaused(closed, k + 1, round);
      }
    } else {
      assert b.active[k..] == [];
    }
  }

  /** One sale of the pause's loop below the stop-profit: the trade is
      closed and nothing resumes. */
  lemma SellBelowStopProfitWhilePaused(b: Book, k: nat, round: real -> real) returns (closed: Book)
    requires BookInv(b) && !b.placingAllowed
    requires |b.statusStack| > 0 && b.statusStack[0] == Failed
    requires k < |b.active| && b.active[k].currentPrice < b.active[k].stopProfit
    ensures closed == SellActiveOrder(b, k, round) && BookInv(closed)
    ensures !closed.placingAllowed && closed.pendingBuys == b.pendingBuys
    ensures |closed.statusStack| > 0 && closed.statusStack[0] == Failed
    ensures closed.active == b.active[..k] + b.active[k + 1..]
  {
    closed := CloseTrade(b, k, round);
    assert !NextPlacingAllowed(closed.placingAllowed, closed.statusStack);
  }

  lemma SoldAfterRemoval(c: seq<PaperTrade>, k: nat)
    requires k < |c| && SoldBelowStopProfit(c, k)
    ensures SoldBelowStopProfit(c[..k] + c[k + 1..], k + 1)
  {
    var rest := c[..k] + c[k + 1..];
    forall j | k + 1 <= j < |rest| && (j - k - 1) % 2 == 0
      ensures rest[j].currentPrice < rest[j].stopProfit
    {
      assert rest[j] == c[j + 1];
    }
  }

  lemma OddPositionsAfterRemoval(c: seq<PaperTrade>, k: nat)
    requires k < |c|
    ensures var rest := c[..k] + c[k + 1..];
      k + 1 <= |rest| ==> rest[..k + 1] + OddPositions(rest[k + 1..]) == c[..k] + OddPositions(c[k..])
    ensures k + 1 == |c| ==> c[..k] + c[k + 1..] == c[..k] + OddPositions(c[k..])
  {
    var rest := c[..k] + c[k + 1..];
    if k + 1 < |c| {
      assert rest[..k + 1] == c[..k] + [c[k + 1]];
      assert rest[k + 1..] == c[k + 2..];
      assert c[k..][2..] == c[k + 2..];
    } else {
      assert c[k + 1..] == [];
    }
  }

  /** A pause in which no sold order reaches its stop-profit: trading stays
      paused, every pending buy is hidden, and the active orders left are
      exactly those at odd positions, since the sell-everything loop skips
      the order sliding into each freed place. */
  lemma PauseSellsEvenPositions(b: Book, round: real -> real)
    requires BookInv(b) && Pausing(b)
    requires SoldBelowStopProfit(b.active, 0)
    ensures var r := PauseOrResume(b, round);
      && !r.placingAllowed
      && r.pendingBuys == SetHidden(b.pendingBuys, true)
      && VisibleCount(r.pendingBuys) == 0
      && r.active == OddPositions(b.active)
  {
    var hidden := b.(placingAllowed := false, pendingBuys := SetHidden(b.pendingBuys, true));
    VisibleCountAfterSetHidden(b.pendingBuys, true);
    SellAllWhilePaused(hidden, 0, round);
    assert b.active[0..] == b.active;
  }

  /** The live price of a symbol: the close of its newest minute row. */
  function LivePrice(latest: ChartSchedule.ChartData, symbol: string): real
    requires ChartSchedule.NonEmptyRows(latest) && symbol in latest
  {
    latest[symbol][0].close
  }

  /** An active order at `live` is sold on its stop-loss, its stop-profit,
      or when it has been held longer than its timeframe allows. */
  predicate ShouldSell(t: PaperTrade, live: real, now: int) {
    live <= t.stopLoss || live >= t.stopProfit || now - t.timestamp > OrderExpireLimit(t.timeFrame)
  }

  /** Replacing an order by one with the same hidden flag keeps the visible
      count. */
  lemma VisibleCountOfUpdate(orders: seq<PaperTrade>, k: nat, t: PaperTrade)
    requires k < |orders| && t.isHiddenTrade == orders[k].isHiddenTrade
    ensures VisibleCount(orders[k := t]) == VisibleCount(orders)
  {
    VisibleCountWithout(orders, k);
    VisibleCountWithout(orders[k := t], k);
    assert orders[k := t][..k] + orders[k := t][k + 1..] == orders[..k] + orders[k + 1..];
  }

  /** `triggerActiveSellOrders` from position `k`: every visited order with
      a price gets that price, and is sold when `ShouldSell` holds. */
  function TriggerActiveSellOrders(b: Book, latest: ChartSchedule.ChartData, now: int, k: nat,
                                   round: real -> real): (r: Book)
    requires BookInv(b) && ChartSchedule.NonEmptyRows(latest)
    ensures |r.active| <= |b.active|
    ensures SameApartFromHiding(b.pendingBuys, r.pendingBuys)
    ensures r.activeOrderLimit == b.activeOrderLimit
    ensures BookInv(r)
    ensures Capital(r) == Capital(b)
    decreases |b.active| - k
  {
    if k < |b.active| then
      var t := b.active[k];
      if t.symbol in latest then
        var live := LivePrice(latest, t.symbol);
        var priced := b.(active := b.active[k := t.(currentPrice := live)]);
        VisibleCountOfUpdate(b.active, k, t.(currentPrice := live));
        var next := if ShouldSell(t, live, now) then SellActiveOrder(priced, k, round) else priced;
        var r := TriggerActiveSellOrders(next, latest, now, k + 1, round);
        SameApartFromHidingChains(b.pendingBuys, next.pendingBuys, r.pendingBuys);
        r
      else TriggerActiveSellOrders(b, latest, now, k + 1, round)
    else b
  }

  /** The active orders from position `k` on with their live prices
      recorded; the others as they are. */
  function Repriced(active: seq<PaperTrade>, latest: ChartSchedule.ChartData, k: nat): (r: seq<PaperTrade>)
    requires ChartSchedule.NonEmptyRows(latest)
  {
    seq(|active|, j requires 0 <= j < |active| =>
      if j < k || active[j].symbol !in latest then active[j]
      else active[j].(currentPrice := LivePrice(latest, active[j].symbol)))
  }

  /** Recording the live price at position `k` takes the repricing from
      `k` to `k + 1`. */
  lemma RepricedStep(active: seq<PaperTrade>, latest: ChartSchedule.ChartData, k: nat)
    requires ChartSchedule.NonEmptyRows(latest) && k < |active|
    ensures active[k].symbol !in latest ==> Repriced(active, latest, k + 1) == Repriced(active, latest, k)
    ensures active[k].symbol in latest ==>
      Repriced(active[k := active[k].(currentPrice := LivePrice(latest, active[k].symbol))], latest, k + 1)
        == Repriced(active, latest, k)
  {
  }

  /** No active order with a live price has reason to be sold. */
  predicate NoneToSell(active: seq<PaperTrade>, latest: ChartSchedule.ChartData, now: int)
    requires ChartSchedule.NonEmptyRows(latest)
  {
    forall j :: 0 <= j < |active| && active[j].symbol in latest ==>
      !ShouldSell(active[j], LivePrice(latest, active[j].symbol), now)
  }

  /** When no active order has reason to be sold, the trigger only records
      the live prices: the same orders stay active and nothing else
      changes. */
  lemma {:induction false} QuietTickOnlyUpdatesPrices(b: Book, latest: ChartSchedule.ChartData, now: int, k: nat,
                                                   round: real -> real)
    requires BookInv(b) && ChartSchedule.NonEmptyRows(latest)
    requires NoneToSell(b.active, latest, now)
    ensures TriggerActiveSellOrders(b, latest, now, k, round) == b.(active := Repriced(b.active, latest, k))
    decreases |b.active| - k
  {
    if k < |b.active| {
      var t := b.active[k];
      RepricedStep(b.active, latest, k);
      if t.symbol in latest {
        var priced := b.(active := b.active[k := t.(currentPrice := LivePrice(latest, t.symbol))]);
        VisibleCountOfUpdate(b.active, k, t.(currentPrice := LivePrice(latest, t.symbol)));
        PricingKeepsQuiet(b.active, latest, now, k);
        QuietTickOnlyUpdatesPrices(priced, latest, now, k + 1, round);
      } else {
        QuietTickOnlyUpdatesPrices(b, latest, now, k + 1, round);
      }
    } else {
      RepricedAt(b.active, latest, k);
    }
  }

  /** Recording one live price changes no order's reason to be sold. */
  lemma PricingKeepsQuiet(active: seq<PaperTrade>, latest: ChartSchedule.ChartData, now: int, k: nat)
    requires ChartSchedule.NonEmptyRows(latest) && k < |active| && active[k].symbol in latest
    requires NoneToSell(active, latest, now)
    ensures NoneToSell(active[k := active[k].(currentPrice := LivePrice(latest, active[k].symbol))], latest, now)
  {
    var priced := active[k := active[k].(currentPrice := LivePrice(latest, active[k].symbol))];
    forall j | 0 <= j < |priced| && priced[j].symbol in latest
      ensures !ShouldSell(priced[j], LivePrice(latest, priced[j].symbol), now)
    {
      assert priced[j].symbol == active[j].symbol;
    }
  }

  /** What the repricing does to each position: nothing but the price
      changes, positions before `k` stay, and later positions carry the live
      price of their symbol when it has one. */
  lemma RepricedAt(active: seq<PaperTrade>, latest: ChartSchedule.ChartData, k: nat)
    requires ChartSchedule.NonEmptyRows(latest)
    ensures var r := Repriced(active, latest, k);
      && |r| == |active|
      && (forall j :: 0 <= j < |active| ==> r[j] == active[j].(currentPrice := r[j].currentPrice))
      && (forall j :: 0 <= j < k && j < |active| ==> r[j] == active[j])
      && (forall j :: k <= j < |active| ==>
            r[j].currentPrice ==
              (if active[j].symbol in latest then LivePrice(latest, active[j].symbol) else active[j].currentPrice))
  {
  }

  /** An active order of the bearish item's symbol and timeframe. */
  predicate MatchesBear(t: PaperTrade, bear: BearishCandidate) {
    t.symbol == bear.symbol && t.timeFrame == bear.timeFrame
  }

  /** The inner loop of `sellIfTimeFrameIsBearish` from position `k`: sell
      every visited order matching the bearish item. */
  function SellMatching(b: Book, bear: BearishCandidate, k: nat, round: real -> real): (r: Book)
    requires BookInv(b)
    ensures |r.active| <= |b.active|
    ensures forall x | x in r.active :: x in b.active
    ensures SameApartFromHiding(b.pendingBuys, r.pendingBuys)
    ensures r.activeOrderLimit == b.activeOrderLimit
    ensures BookInv(r)
    ensures Capital(r) == Capital(b)
    ensures (exists j :: k <= j < |b.active| && MatchesBear(b.active[j], bear)) ==> |r.active| < |b.active|
    ensures (forall j :: k <= j < |b.active| ==> !MatchesBear(b.active[j], bear)) ==> r == b
    decreases |b.active| - k
  {
    if k < |b.active| then
      if MatchesBear(b.active[k], bear) then
        var next := SellActiveOrder(b, k, round);
        var r := SellMatching(next, bear, k + 1, round);
        SameApartFromHidingChains(b.pendingBuys, next.pendingBuys, r.pendingBuys);
        r
      else SellMatching(b, bear, k + 1, round)
    else b
  }

  /** `sellIfTimeFrameIsBearish`: the inner loop for every bearish item in
      turn. */
  function SellIfTimeFrameIsBearish(b: Book, bears: seq<BearishCandidate>, round: real -> real): (r: Book)
    requires BookInv(b)
    ensures |r.active| <= |b.active|
    ensures forall x | x in r.active :: x in b.active
    ensures SameApartFromHiding(b.pendingBuys, r.pendingBuys)
    ensures r.activeOrderLimit == b.activeOrderLimit
    ensures BookInv(r)
    ensures Capital(r) == Capital(b)
    decreases |bears|
  {
    if |bears| == 0 then b
    else
      var before := SellIfTimeFrameIsBearish(b, bears[..|bears| - 1], round);
      var r := SellMatching(before, bears[|bears| - 1], 0, round);
      SameApartFromHidingChains(b.pendingBuys, before.pendingBuys, r.pendingBuys);
      r
  }

  /** An active order matching no bearish item survives the bearish check
      unless a pause sells it; in particular with no active order matching
      any item, nothing changes. */
  lemma {:induction false} NoMatchingBearKeepsBook(b: Book, bears: seq<BearishCandidate>, round: real -> real)
    requires BookInv(b)
    requires forall i, j :: 0 <= i < |bears| && 0 <= j < |b.active| ==> !MatchesBear(b.active[j], bears[i])
    ensures SellIfTimeFrameIsBearish(b, bears, round) == b
    decreases |bears|
  {
    if |bears| > 0 {
      NoMatchingBearKeepsBook(b, bears[..|bears| - 1], round);
      assert forall j :: 0 <= j < |b.active| ==> !MatchesBear(b.active[j], bears[|bears| - 1]);
    }
  }

  /** `current` is `original` with only its price and hidden flag possibly
      changed. */
  predicate SameOrder(original: PaperTrade, current: PaperTrade) {
    current == original.(currentPrice := current.currentPrice, isHiddenTrade := current.isHiddenTrade)
  }

  /** Bookkeeping for the buy trigger: `origin[j]` is the position in the
      original list of the order now at `j`; orders without a price keep
      theirs, and none of them has been removed. */
  ghost predicate Tracked(original: seq<PaperTrade>, current: seq<PaperTrade>, origin: seq<nat>,
                          latest: ChartSchedule.ChartData) {
    && |origin| == |current|
    && (forall j :: 0 <= j < |current| ==>
          && origin[j] < |original|
          && SameOrder(original[origin[j]], current[j])
          && (original[origin[j]].symbol !in latest ==> current[j].currentPrice == original[origin[j]].currentPrice))
    && (forall i :: 0 <= i < |original| && original[i].symbol !in latest ==> i in origin)
  }

  lemma TrackedAfterRemoval(original: seq<PaperTrade>, current: seq<PaperTrade>, origin: seq<nat>,
                            latest: ChartSchedule.ChartData, k: nat)
    requires Tracked(original, current, origin, latest)
    requires k < |current| && current[k].symbol in latest
    ensures Tracked(original, current[..k] + current[k + 1..], origin[..k] + origin[k + 1..], latest)
  {
    var c := current[..k] + current[k + 1..];
    var o := origin[..k] + origin[k + 1..];
    forall j | 0 <= j < |c|
      ensures o[j] < |original| && SameOrder(original[o[j]], c[j])
      ensures original[o[j]].symbol !in latest ==> c[j].currentPrice == original[o[j]].currentPrice
    {
      var j' := if j < k then j else j + 1;
      assert c[j] == current[j'] && o[j] == origin[j'];
    }
    forall i | 0 <= i < |original| && original[i].symbol !in latest
      ensures i in o
    {
      var p :| 0 <= p < |origin| && origin[p] == i;
      assert p != k by {
        assert current[p].symbol == original[i].symbol;
      }
      if p < k {
        assert o[p] == i;
      } else {
        assert o[p - 1] == i;
      }
    }
  }

  lemma TrackedAfterPricing(original: seq<PaperTrade>, current: seq<PaperTrade>, origin: seq<nat>,
                            latest: ChartSchedule.ChartData, k: nat, live: real)
    requires Tracked(original, current, origin, latest)
    requires k < |current| && current[k].symbol in latest
    ensures Tracked(original, current[k := current[k].(currentPrice := live)], origin, latest)
  {
    assert original[origin[k]].symbol == current[k].symbol;
  }

  lemma TrackedAfterHiding(original: seq<PaperTrade>, current: seq<PaperTrade>, origin: seq<nat>,
                           latest: ChartSchedule.ChartData)
    requires Tracked(original, current, origin, latest)
    ensures Tracked(original, SetHidden(current, true), origin, latest)
  {
  }

  /** Every order without a price is still pending, with its price. */
  lemma UntickedOrdersStay(original: seq<PaperTrade>, current: seq<PaperTrade>, origin: seq<nat>,
                           latest: ChartSchedule.ChartData)
    requires Tracked(original, current, origin, latest)
    ensures forall i :: 0 <= i < |original| && original[i].symbol !in latest ==>
      exists j :: 0 <= j < |current| && current[j] == original[i].(isHiddenTrade := current[j].isHiddenTrade)
  {
    forall i | 0 <= i < |original| && original[i].symbol !in latest
      ensures exists j :: 0 <= j < |current| && current[j] == original[i].(isHiddenTrade := current[j].isHiddenTrade)
    {
      var j :| 0 <= j < |origin| && origin[j] == i;
      assert current[j] == original[i].(isHiddenTrade := current[j].isHiddenTrade);
    }
  }

  /** Whether the buy trigger fills an order at its current price: the
      balance is enough, the price is at or under the buy price, and the
      order is hidden or fewer visible orders than the limit are active. */
  predicate Fillable(o: PaperTrade, balance: real, visibleActive: int, limit: int) {
    && BalanceIsEnough(balance)
    && o.currentPrice <= o.buyPrice
    && (o.isHiddenTrade || visibleActive < limit)
  }

  /** A visited order that was not filled: it carries its symbol's live
      price and cannot be filled against `balance` and `visibleActive`. */
  predicate Unfilled(o: PaperTrade, latest: ChartSchedule.ChartData, balance: real, visibleActive: int, limit: int)
    requires ChartSchedule.NonEmptyRows(latest)
  {
    && o.symbol in latest
    && o.currentPrice == LivePrice(latest, o.symbol)
    && !Fillable(o, balance, visibleActive, limit)
  }

  /** A pending order left by the buy trigger: a visited one is unfilled
      and at most an hour old; an unvisited one keeps the price it had. */
  predicate KeptAs(o: PaperTrade, visited: bool, oldPrice: real, latest: ChartSchedule.ChartData, now: int,
                   balance: real, visibleActive: int, limit: int)
    requires ChartSchedule.NonEmptyRows(latest)
  {
    if visited then Unfilled(o, latest, balance, visibleActive, limit) && now - o.timestamp <= PendingBuyOrderExpireMs
    else o.currentPrice == oldPrice
  }

  /** Every pending order left, with its origin and visit flag, is `KeptAs`. */
  predicate AllKept(original: seq<PaperTrade>, buys: seq<PaperTrade>, origin: seq<nat>, seen: seq<bool>,
                    latest: ChartSchedule.ChartData, now: int, balance: real, visibleActive: int, limit: int)
    requires ChartSchedule.NonEmptyRows(latest)
  {
    && |seen| == |buys| == |origin|
    && forall j :: 0 <= j < |buys| ==>
         origin[j] < |original| &&
         KeptAs(buys[j], seen[j], original[origin[j]].currentPrice, latest, now, balance, visibleActive, limit)
  }

  /** Every expired order is unfilled and more than an hour old. */
  predicate AllExpired(expired: seq<PaperTrade>, latest: ChartSchedule.ChartData, now: int,
                       balance: real, visibleActive: int, limit: int)
    requires ChartSchedule.NonEmptyRows(latest)
  {
    forall e | e in expired ::
      Unfilled(e, latest, balance, visibleActive, limit) && now - e.timestamp > PendingBuyOrderExpireMs
  }

  /** `from[j]` is the position in `original` of the order now at `list[j]`. */
  predicate Traced(original: seq<PaperTrade>, list: seq<PaperTrade>, from: seq<nat>) {
    |from| == |list| && forall j :: 0 <= j < |list| ==> from[j] < |original| && SameOrder(original[from[j]], list[j])
  }

  /** The positions of a list of `n` entries. */
  function Positions(n: nat): (r: seq<nat>)
    ensures |r| == n && forall i :: 0 <= i < n ==> r[i] == i
  {
    seq(n, i => i)
  }

  /** Where each original pending buy went: `kept[j]`, `filled[j]` and
      `expired[j]` are the original positions of the orders in the three
      result lists, and `visited[j]` tells whether the kept order at `j` was
      looked at with a live price. */
  datatype BuyTrace = BuyTrace(kept: seq<nat>, visited: seq<bool>, filled: seq<nat>, expired: seq<nat>)

  /** The buy trigger's working state. */
  datatype BuyScan = BuyScan(
    buys: seq<PaperTrade>, active: seq<PaperTrade>, balance: real,
    fills: seq<PaperTrade>, expired: seq<PaperTrade>,
    origin: seq<nat>, seen: seq<bool>, fillFrom: seq<nat>, expiredFrom: seq<nat>)

  /** What holds of the buy trigger's working state after every visit. */
  ghost predicate ScanInv(b: Book, latest: ChartSchedule.ChartData, now: int, st: BuyScan)
    requires ChartSchedule.NonEmptyRows(latest)
  {
    && Tracked(b.pendingBuys, st.buys, st.origin, latest)
    && Traced(b.pendingBuys, st.fills, st.fillFrom)
    && Traced(b.pendingBuys, st.expired, st.expiredFrom)
    && multiset(st.origin + st.fillFrom + st.expiredFrom) == multiset(Positions(|b.pendingBuys|))
    && st.active == b.active + st.fills
    && |st.buys| + |st.fills| + |st.expired| == |b.pendingBuys|
    && VisibleCount(st.fills) <= 1
    && st.balance == b.balance - MinTradeAmountUsd * VisibleCount(st.fills) as real
    && st.balance <= b.balance
    && (|st.fills| > 0 ==> BalanceIsEnough(b.balance))
    && (VisibleCount(st.fills) == 1 ==> VisibleCount(b.active) < b.activeOrderLimit && VisibleCount(st.buys) == 0)
    && FilledAtLivePrice(latest, st.fills)
    && AllKept(b.pendingBuys, st.buys, st.origin, st.seen, latest, now, st.balance, VisibleCount(st.active), b.activeOrderLimit)
    && AllExpired(st.expired, latest, now, st.balance, VisibleCount(st.active), b.activeOrderLimit)
  }

  /** Every filled order was bought at its symbol's live price, at or below
      its buy price. */
  predicate FilledAtLivePrice(latest: ChartSchedule.ChartData, fills: seq<PaperTrade>)
    requires ChartSchedule.NonEmptyRows(latest)
  {
    forall f | f in fills ::
      f.symbol in latest && f.currentPrice == LivePrice(latest, f.symbol) && f.currentPrice <= f.buyPrice
  }

  lemma FilledAppend(latest: ChartSchedule.ChartData, fills: seq<PaperTrade>, order: PaperTrade)
    requires ChartSchedule.NonEmptyRows(latest) && FilledAtLivePrice(latest, fills)
    requires order.symbol in latest && order.currentPrice == LivePrice(latest, order.symbol) <= order.buyPrice
    ensures FilledAtLivePrice(latest, fills + [order])
  {
    assert forall f | f in fills + [order] :: f in fills || f == order;
  }

  /** An unfilled order stays unfilled as the balance falls and the visible
      active orders grow. */
  lemma AllExpiredLater(expired: seq<PaperTrade>, latest: ChartSchedule.ChartData, now: int,
                        balance: real, visibleActive: int, balance': real, visibleActive': int, limit: int)
    requires ChartSchedule.NonEmptyRows(latest)
    requires AllExpired(expired, latest, now, balance, visibleActive, limit)
    requires balance' <= balance && visibleActive' >= visibleActive
    ensures AllExpired(expired, latest, now, balance', visibleActive', limit)
  {
  }

  lemma AllExpiredAppend(expired: seq<PaperTrade>, latest: ChartSchedule.ChartData, now: int,
                         balance: real, visibleActive: int, limit: int, order: PaperTrade)
    requires ChartSchedule.NonEmptyRows(latest)
    requires AllExpired(expired, latest, now, balance, visibleActive, limit)
    requires Unfilled(order, latest, balance, visibleActive, limit) && now - order.timestamp > PendingBuyOrderExpireMs
    ensures AllExpired(expired + [order], latest, now, balance, visibleActive, limit)
  {
    assert forall e | e in expired + [order] :: e in expired || e == order;
  }

  lemma AllKeptLater(original: seq<PaperTrade>, buys: seq<PaperTrade>, origin: seq<nat>, seen: seq<bool>,
                     latest: ChartSchedule.ChartData, now: int, balance: real, visibleActive: int,
                     balance': real, visibleActive': int, limit: int)
    requires ChartSchedule.NonEmptyRows(latest)
    requires AllKept(original, buys, origin, seen, latest, now, balance, visibleActive, limit)
    requires balance' <= balance && visibleActive' >= visibleActive
    ensures AllKept(original, buys, origin, seen, latest, now, balance', visibleActive', limit)
  {
  }

  lemma AllKeptAfterRemoval(original: seq<PaperTrade>, buys: seq<PaperTrade>, origin: seq<nat>, seen: seq<bool>,
                            latest: ChartSchedule.ChartData, now: int, balance: real, visibleActive: int,
                            limit: int, k: nat)
    requires ChartSchedule.NonEmptyRows(latest)
    requires AllKept(original, buys, origin, seen, latest, now, balance, visibleActive, limit)
    requires k < |buys|
    ensures AllKept(original, buys[..k] + buys[k + 1..], origin[..k] + origin[k + 1..], seen[..k] + seen[k + 1..],
                    latest, now, balance, visibleActive, limit)
  {
    var c := buys[..k] + buys[k + 1..];
    var o := origin[..k] + origin[k + 1..];
    var s := seen[..k] + seen[k + 1..];
    forall j | 0 <= j < |c|
      ensures o[j] < |original| && KeptAs(c[j], s[j], original[o[j]].currentPrice, latest, now, balance, visibleActive, limit)
    {
      var j' := if j < k then j else j + 1;
      assert c[j] == buys[j'] && o[j] == origin[j'] && s[j] == seen[j'];
    }
  }

  /** Recording a visited, unfilled order that is at most an hour old. */
  lemma AllKeptAfterVisit(original: seq<PaperTrade>, buys: seq<PaperTrade>, origin: seq<nat>, seen: seq<bool>,
                          latest: ChartSchedule.ChartData, now: int, balance: real, visibleActive: int,
                          limit: int, k: nat, order: PaperTrade)
    requires ChartSchedule.NonEmptyRows(latest)
    requires AllKept(original, buys, origin, seen, latest, now, balance, visibleActive, limit)
    requires k < |buys|
    requires Unfilled(order, latest, balance, visibleActive, limit) && now - order.timestamp <= PendingBuyOrderExpireMs
    ensures AllKept(original, buys[k := order], origin, seen[k := true], latest, now, balance, visibleActive, limit)
  {
  }

  /** After a visible fill every visited pending order was unfilled only
      for its price, so hiding it and paying for the fill keeps it
      unfilled. */
  lemma AllKeptAfterHiding(original: seq<PaperTrade>, buys: seq<PaperTrade>, origin: seq<nat>, seen: seq<bool>,
                           latest: ChartSchedule.ChartData, now: int, balance: real, visibleActive: int,
                           balance': real, visibleActive': int, limit: int)
    requires ChartSchedule.NonEmptyRows(latest)
    requires AllKept(original, buys, origin, seen, latest, now, balance, visibleActive, limit)
    requires BalanceIsEnough(balance) && visibleActive < limit
    ensures AllKept(original, SetHidden(buys, true), origin, seen, latest, now, balance', visibleActive', limit)
  {
    var hidden := SetHidden(buys, true);
    forall j | 0 <= j < |hidden|
      ensures origin[j] < |original| &&
        KeptAs(hidden[j], seen[j], original[origin[j]].currentPrice, latest, now, balance', visibleActive', limit)
    {
      assert hidden[j] == buys[j].(isHiddenTrade := true);
    }
  }

  /** Moving one original position from the kept list to the end of the
      filled or the expired list keeps the three lists a partition. */
  lemma MovedPosition(origin: seq<nat>, k: nat, filled: seq<nat>, expired: seq<nat>)
    requires k < |origin|
    ensures multiset((origin[..k] + origin[k + 1..]) + (filled + [origin[k]]) + expired)
      == multiset(origin + filled + expired)
    ensures multiset((origin[..k] + origin[k + 1..]) + filled + (expired + [origin[k]]))
      == multiset(origin + filled + expired)
  {
    assert origin == origin[..k] + [origin[k]] + origin[k + 1..];
  }

  lemma TracedAppend(original: seq<PaperTrade>, list: seq<PaperTrade>, from: seq<nat>, i: nat, order: PaperTrade)
    requires Traced(original, list, from)
    requires i < |original| && SameOrder(original[i], order)
    ensures Traced(original, list + [order], from + [i])
  {
  }

  lemma AppendAfterConcatenation(a: seq<PaperTrade>, b: seq<PaperTrade>, x: PaperTrade)
    ensures (a + b) + [x] == a + (b + [x])
  {
  }

  /** The order at `k` with the live price of its symbol. */
  function PricedAt(buys: seq<PaperTrade>, latest: ChartSchedule.ChartData, k: nat): (o: PaperTrade)
    requires ChartSchedule.NonEmptyRows(latest) && k < |buys| && buys[k].symbol in latest
    ensures SameOrder(buys[k], o) && o.isHiddenTrade == buys[k].isHiddenTrade
    ensures o.currentPrice == LivePrice(latest, o.symbol)
  {
    buys[k].(currentPrice := LivePrice(latest, buys[k].symbol))
  }

  /** Moving the order at `k`, at its live price, to the active list. */
  method Fill(b: Book, latest: ChartSchedule.ChartData, now: int, st: BuyScan, k: nat) returns (next: BuyScan)
    requires ChartSchedule.NonEmptyRows(latest)
    requires ScanInv(b, latest, now, st)
    requires k < |st.buys| && st.buys[k].symbol in latest
    requires Fillable(PricedAt(st.buys, latest, k), st.balance, VisibleCount(st.active), b.activeOrderLimit)
    ensures ScanInv(b, latest, now, next)
    ensures next.fills == st.fills + [PricedAt(st.buys, latest, k)] && next.expired == st.expired
    ensures next.seen == st.seen[..k] + st.seen[k + 1..]
  {
    var order := PricedAt(st.buys, latest, k);
    var fills := st.fills + [order];
    var rest := st.buys[..k] + st.buys[k + 1..];
    var origin := st.origin[..k] + st.origin[k + 1..];
    var seen := st.seen[..k] + st.seen[k + 1..];
    var fillFrom := st.fillFrom + [st.origin[k]];
    var visible := if order.isHiddenTrade then 0 else 1;
    var count := VisibleCount(st.active);
    assert VisibleCount(fills) == VisibleCount(st.fills) + visible by {
      assert fills[..|fills| - 1] == st.fills;
    }
    assert VisibleCount(rest) == VisibleCount(st.buys) - visible by {
      VisibleCountWithout(st.buys, k);
    }
    assert VisibleCount(st.active + [order]) == count + visible by {
      assert (st.active + [order])[..|st.active|] == st.active;
    }
    assert count == VisibleCount(b.active) + VisibleCount(st.fills) by {
      VisibleCountOfConcatenation(b.active, st.fills);
    }
    assert Tracked(b.pendingBuys, rest, origin, latest) by {
      TrackedAfterRemoval(b.pendingBuys, st.buys, st.origin, latest, k);
    }
    assert Traced(b.pendingBuys, fills, fillFrom) by {
      TracedAppend(b.pendingBuys, st.fills, st.fillFrom, st.origin[k], order);
    }
    MovedPosition(st.origin, k, st.fillFrom, st.expiredFrom);
    AllKeptAfterRemoval(b.pendingBuys, st.buys, st.origin, st.seen, latest, now, st.balance, count,
                        b.activeOrderLimit, k);
    FilledAppend(latest, st.fills, order);
    var buys := rest;
    var balance := st.balance;
    if !order.isHiddenTrade {
      balance := balance - MinTradeAmountUsd;
      assert Tracked(b.pendingBuys, SetHidden(rest, true), origin, latest) by {
        TrackedAfterHiding(b.pendingBuys, rest, origin, latest);
      }
      assert VisibleCount(SetHidden(rest, true)) == 0 by {
        VisibleCountAfterSetHidden(rest, true);
      }
      AllKeptAfterHiding(b.pendingBuys, rest, origin, seen, latest, now, st.balance, count,
                         balance, count + 1, b.activeOrderLimit);
      AllExpiredLater(st.expired, latest, now, st.balance, count, balance, count + 1, b.activeOrderLimit);
      buys := SetHidden(rest, true);
    }
    assert VisibleCount(fills) == 1 ==> VisibleCount(b.active) < b.activeOrderLimit && VisibleCount(buys) == 0;
    AppendAfterConcatenation(b.active, st.fills, order);
    next := BuyScan(buys, st.active + [order], balance, fills, st.expired, origin, seen, fillFrom, st.expiredFrom);
  }

  /** Dropping the order at `k`, at its live price, as expired. */
  method Expire(b: Book, latest: ChartSchedule.ChartData, now: int, st: BuyScan, k: nat) returns (next: BuyScan)
    requires ChartSchedule.NonEmptyRows(latest)
    requires ScanInv(b, latest, now, st)
    requires k < |st.buys| && st.buys[k].symbol in latest
    requires !Fillable(PricedAt(st.buys, latest, k), st.balance, VisibleCount(st.active), b.activeOrderLimit)
    requires now - st.buys[k].timestamp > PendingBuyOrderExpireMs
    ensures ScanInv(b, latest, now, next)
    ensures next.buys == st.buys[..k] + st.buys[k + 1..]
    ensures next.seen == st.seen[..k] + st.seen[k + 1..]
    ensures next.expired == st.expired + [PricedAt(st.buys, latest, k)] && next.fills == st.fills
  {
    var order := PricedAt(st.buys, latest, k);
    var count := VisibleCount(st.active);
    VisibleCountWithout(st.buys, k);
    TrackedAfterRemoval(b.pendingBuys, st.buys, st.origin, latest, k);
    TracedAppend(b.pendingBuys, st.expired, st.expiredFrom, st.origin[k], order);
    MovedPosition(st.origin, k, st.fillFrom, st.expiredFrom);
    AllKeptAfterRemoval(b.pendingBuys, st.buys, st.origin, st.seen, latest, now, st.balance, count,
                        b.activeOrderLimit, k);
    AllExpiredAppend(st.expired, latest, now, st.balance, count, b.activeOrderLimit, order);
    next := st.(buys := st.buys[..k] + st.buys[k + 1..], expired := st.expired + [order],
                origin := st.origin[..k] + st.origin[k + 1..], seen := st.seen[..k] + st.seen[k + 1..],
                expiredFrom := st.expiredFrom + [st.origin[k]]);
  }

  /** Keeping the order at `k` pending, at its live price, as visited. */
  method Keep(b: Book, latest: ChartSchedule.ChartData, now: int, st: BuyScan, k: nat) returns (next: BuyScan)
    requires ChartSchedule.NonEmptyRows(latest)
    requires ScanInv(b, latest, now, st)
    requires k < |st.buys| && st.buys[k].symbol in latest
    requires !Fillable(PricedAt(st.buys, latest, k), st.balance, VisibleCount(st.active), b.activeOrderLimit)
    requires now - st.buys[k].timestamp <= PendingBuyOrderExpireMs
    ensures ScanInv(b, latest, now, next)
    ensures next == st.(buys := st.buys[k := PricedAt(st.buys, latest, k)], seen := st.seen[k := true])
  {
    var order := PricedAt(st.buys, latest, k);
    TrackedAfterPricing(b.pendingBuys, st.buys, st.origin, latest, k, order.currentPrice);
    VisibleCountOfUpdate(st.buys, k, order);
    AllKeptAfterVisit(b.pendingBuys, st.buys, st.origin, st.seen, latest, now, st.balance, VisibleCount(st.active),
                      b.activeOrderLimit, k, order);
    next := st.(buys := st.buys[k := order], seen := st.seen[k := true]);
  }

  /** No order from position `k` on has been visited yet. */
  predicate UnseenFrom(seen: seq<bool>, k: nat) {
    forall j :: k <= j < |seen| ==> !seen[j]
  }

  /** Until an order leaves the pending list, every order before `k` with a
      live price has been visited. */
  predicate SeenBefore(st: BuyScan, latest: ChartSchedule.ChartData, k: nat) {
    |st.fills| + |st.expired| == 0 ==>
      forall j :: 0 <= j < k && j < |st.buys| && j < |st.seen| && st.buys[j].symbol in latest ==> st.seen[j]
  }

  lemma UnseenAfterRemoval(seen: seq<bool>, k: nat)
    requires k < |seen| && UnseenFrom(seen, k)
    ensures UnseenFrom(seen[..k] + seen[k + 1..], k + 1)
  {
    var s := seen[..k] + seen[k + 1..];
    forall j | k + 1 <= j < |s|
      ensures !s[j]
    {
      assert s[j] == seen[j + 1];
    }
  }

  lemma SeenAfterVisit(st: BuyScan, latest: ChartSchedule.ChartData, k: nat, order: PaperTrade)
    requires k < |st.buys| && |st.seen| == |st.buys| && order.symbol == st.buys[k].symbol
    requires UnseenFrom(st.seen, k) && SeenBefore(st, latest, k)
    ensures UnseenFrom(st.seen[k := true], k + 1)
    ensures SeenBefore(st.(buys := st.buys[k := order], seen := st.seen[k := true]), latest, k + 1)
  {
  }

  /** One visit of the buy trigger, at position `k`: an order without a live
      price is left alone; one with a live price takes it and is filled
      exactly when `Fillable` holds against the scan's balance and active
      list, is otherwise expired exactly when older than an hour, and is
      otherwise kept. */
  method VisitPendingBuy(b: Book, latest: ChartSchedule.ChartData, now: int, st: BuyScan, k: nat)
    returns (next: BuyScan)
    requires ChartSchedule.NonEmptyRows(latest)
    requires ScanInv(b, latest, now, st)
    requires k < |st.buys|
    requires UnseenFrom(st.seen, k) && SeenBefore(st, latest, k)
    ensures ScanInv(b, latest, now, next)
    ensures UnseenFrom(next.seen, k + 1) && SeenBefore(next, latest, k + 1)
    ensures st.buys[k].symbol !in latest ==> next == st
    ensures st.buys[k].symbol in latest ==>
      var order := PricedAt(st.buys, latest, k);
      if Fillable(order, st.balance, VisibleCount(st.active), b.activeOrderLimit) then
        next.fills == st.fills + [order] && next.expired == st.expired
      else if now - order.timestamp > PendingBuyOrderExpireMs then
        next.expired == st.expired + [order] && next.fills == st.fills && next.buys == st.buys[..k] + st.buys[k + 1..]
      else
        next.buys == st.buys[k := order] && next.fills == st.fills && next.expired == st.expired
  {
    next := st;
    var order := st.buys[k];
    if order.symbol in latest {
      var live := LivePrice(latest, order.symbol);
      var slot := HasAvailableTradeSlot(order, st.active, b.activeOrderLimit);
      var enough := BalanceIsEnough(st.balance);
      assert enough && live <= order.buyPrice && slot <==>
        Fillable(PricedAt(st.buys, latest, k), st.balance, VisibleCount(st.active), b.activeOrderLimit);
      if enough && live <= order.buyPrice && slot {
        next := Fill(b, latest, now, st, k);
        UnseenAfterRemoval(st.seen, k);
      } else if now - order.timestamp > PendingBuyOrderExpireMs {
        next := Expire(b, latest, now, st, k);
        UnseenAfterRemoval(st.seen, k);
      } else {
        next := Keep(b, latest, now, st, k);
        SeenAfterVisit(st, latest, k, PricedAt(st.buys, latest, k));
      }
    }
  }

  /** The scan's state before the first visit: every order pending and
      unvisited at its own position. */
  function StartScan(b: Book): (st: BuyScan) {
    var n := |b.pendingBuys|;
    BuyScan(b.pendingBuys, b.active, b.balance, [], [], Positions(n), seq(n, _ => false), [], [])
  }

  lemma StartScanInv(b: Book, latest: ChartSchedule.ChartData, now: int)
    requires ChartSchedule.NonEmptyRows(latest)
    ensures ScanInv(b, latest, now, StartScan(b))
    ensures UnseenFrom(StartScan(b).seen, 0) && SeenBefore(StartScan(b), latest, 0)
  {
    var st := StartScan(b);
    assert st.origin + st.fillFrom + st.expiredFrom == Positions(|b.pendingBuys|);
    assert b.active + [] == b.active;
  }

  /** What the scan's final state says about the pending, filled and
      expired orders. */
  lemma ScanOutcome(b: Book, latest: ChartSchedule.ChartData, now: int, st: BuyScan, k: nat)
    requires ChartSchedule.NonEmptyRows(latest)
    requires ScanInv(b, latest, now, st)
    requires SeenBefore(st, latest, k) && k >= |st.buys|
    ensures Traced(b.pendingBuys, st.buys, st.origin)
    ensures |st.seen| == |st.buys|
    ensures forall j :: 0 <= j < |st.buys| ==>
      KeptAs(st.buys[j], st.seen[j], b.pendingBuys[st.origin[j]].currentPrice,
             latest, now, st.balance, VisibleCount(st.active), b.activeOrderLimit)
    ensures |st.fills| + |st.expired| == 0 ==>
      forall j :: 0 <= j < |st.buys| && st.buys[j].symbol in latest ==> st.seen[j]
    ensures VisibleCount(b.active) <= b.activeOrderLimit ==> VisibleCount(st.active) <= b.activeOrderLimit
    ensures forall i :: 0 <= i < |b.pendingBuys| && b.pendingBuys[i].symbol !in latest ==>
      exists j :: 0 <= j < |st.buys| &&
        st.buys[j] == b.pendingBuys[i].(isHiddenTrade := st.buys[j].isHiddenTrade)
  {
    UntickedOrdersStay(b.pendingBuys, st.buys, st.origin, latest);
    VisibleCountOfConcatenation(b.active, st.fills);
  }

  /** `triggerPendingBuyOrders`. Each visited pending buy whose symbol has a
      live price takes that price; it is filled (moved to the end of the
      active list) when the balance is enough, the price is at or under the
      buy price and a slot is free, and otherwise dropped once older than
      an hour. A visible fill pays one order's amount and hides every
      remaining pending buy. The visit order is JavaScript's `forEach` over a
      list that shrinks under it, so the order after a removed one is not
      visited. */
  method TriggerPendingBuyOrders(b: Book, latest: ChartSchedule.ChartData, now: int)
    returns (r: Book, fills: seq<PaperTrade>, expired: seq<PaperTrade>, trace: BuyTrace)
    requires ChartSchedule.NonEmptyRows(latest)
    ensures r == b.(balance := r.balance, pendingBuys := r.pendingBuys, active := r.active)
    ensures r.active == b.active + fills
    // every original order ends in exactly one of the three lists
    ensures Traced(b.pendingBuys, r.pendingBuys, trace.kept)
    ensures Traced(b.pendingBuys, fills, trace.filled)
    ensures Traced(b.pendingBuys, expired, trace.expired)
    ensures multiset(trace.kept + trace.filled + trace.expired) == multiset(Positions(|b.pendingBuys|))
    // the fill and expiry rules
    ensures |trace.visited| == |r.pendingBuys|
    ensures forall j :: 0 <= j < |r.pendingBuys| ==>
      KeptAs(r.pendingBuys[j], trace.visited[j], b.pendingBuys[trace.kept[j]].currentPrice,
             latest, now, r.balance, VisibleCount(r.active), b.activeOrderLimit)
    ensures AllExpired(expired, latest, now, r.balance, VisibleCount(r.active), b.activeOrderLimit)
    ensures forall f | f in fills ::
      f.symbol in latest && f.currentPrice == LivePrice(latest, f.symbol) && f.currentPrice <= f.buyPrice
    ensures |fills| > 0 ==> BalanceIsEnough(b.balance)
    ensures |fills| + |expired| == 0 ==>
      forall j :: 0 <= j < |r.pendingBuys| && r.pendingBuys[j].symbol in latest ==> trace.visited[j]
    // the money
    ensures VisibleCount(fills) <= 1
    ensures r.balance == b.balance - MinTradeAmountUsd * VisibleCount(fills) as real
    ensures VisibleCount(fills) == 1 ==>
      VisibleCount(b.active) < b.activeOrderLimit && VisibleCount(r.pendingBuys) == 0
    ensures VisibleCount(b.active) <= b.activeOrderLimit ==> VisibleCount(r.active) <= b.activeOrderLimit
    ensures forall i :: 0 <= i < |b.pendingBuys| && b.pendingBuys[i].symbol !in latest ==>
      exists j :: 0 <= j < |r.pendingBuys| &&
        r.pendingBuys[j] == b.pendingBuys[i].(isHiddenTrade := r.pendingBuys[j].isHiddenTrade)
  {
    var st := StartScan(b);
    StartScanInv(b, latest, now);
    var k := 0;
    while k < |st.buys|
      invariant ScanInv(b, latest, now, st)
      invariant UnseenFrom(st.seen, k) && SeenBefore(st, latest, k)
      decreases |st.buys| - k
    {
      st := VisitPendingBuy(b, latest, now, st, k);
      k := k + 1;
    }
    ScanOutcome(b, latest, now, st, k);
    r := b.(balance := st.balance, pendingBuys := st.buys, active := st.active);
    fills, expired := st.fills, st.expired;
    trace := BuyTrace(st.origin, st.seen, st.fillFrom, st.expiredFrom);
  }

  /** Filling pending buys keeps the capital: what leaves the balance is
      tied up in the new visible active order. */
  lemma FillingKeepsCapital(b: Book, r: Book, fills: seq<PaperTrade>)
    requires r == b.(balance := r.balance, pendingBuys := r.pendingBuys, active := r.active)
    requires r.active == b.active + fills
    requires r.balance == b.balance - MinTradeAmountUsd * VisibleCount(fills) as real
    ensures Capital(r) == Capital(b)
    ensures BookInv(b) ==> BookInv(r)
  {
    VisibleCountOfConcatenation(b.active, fills);
  }

  /** The order `placePendingBuyOrder` builds for a bullish candidate: the
      buy price an eighth of a percent under the close, the levels of the
      candidate's strategy and timeframe, all rounded, and hidden when the
      symbol recently lost or trading is paused. */
  function NewTrade(b: Book, c: BullishCandidate, now: int, round: real -> real): (t: PaperTrade)
    requires c.priceRecord.close != 0.0
    ensures t.symbol == c.priceRecord.symbol && t.timeFrame == c.timeFrame && t.strategy == c.strategy
    ensures t.timestamp == now
    ensures t.buyPrice == t.currentPrice == round(BuyPrice(c.priceRecord.close))
    ensures t.isHiddenTrade <==> c.priceRecord.symbol in b.recentlyLost || !b.placingAllowed
  {
    var buy := BuyPrice(c.priceRecord.close);
    PaperTrade(
      c.priceRecord.symbol,
      round(MinTradeAmountUsd / buy),
      round(buy),
      round(buy),
      round(StopLoss(buy, c.timeFrame, c.strategy)),
      round(StopProfit(buy, c.timeFrame, c.strategy)),
      round(ZeroLossLimit(buy)),
      c.priceRecord.symbol in b.recentlyLost || !b.placingAllowed,
      c.timeFrame,
      c.strategy,
      now)
  }

  /** A pending buy of the same symbol and timeframe at a higher price than
      the new order. */
  predicate Outbid(t: PaperTrade, item: PaperTrade) {
    item.symbol == t.symbol && item.timeFrame == t.timeFrame && t.buyPrice < item.buyPrice
  }

  /** The eviction loop of `placePendingBuyOrder` from position `k`:
      JavaScript's `forEach` removing every visited outbid order, so the
      order sliding into a freed place is not visited. */
  function Evict(buys: seq<PaperTrade>, t: PaperTrade, k: nat): (r: seq<PaperTrade>)
    ensures |r| <= |buys|
    ensures multiset(r) <= multiset(buys)
    ensures forall x | x in buys && !Outbid(t, x) :: x in r
    ensures (forall j :: k <= j < |buys| ==> !Outbid(t, buys[j])) ==> r == buys
    decreases |buys| - k
  {
    if k < |buys| then
      if Outbid(t, buys[k]) then
        var rest := buys[..k] + buys[k + 1..];
        assert buys == buys[..k] + [buys[k]] + buys[k + 1..];
        assert forall x | x in buys && x != buys[k] :: x in rest;
        Evict(rest, t, k + 1)
      else Evict(buys, t, k + 1)
    else buys
  }

  /** Two outbid orders side by side: only the first is evicted. */
  lemma EvictionSkipsNeighbour(t: PaperTrade, x: PaperTrade, y: PaperTrade)
    requires Outbid(t, x) && Outbid(t, y)
    ensures Evict([x, y], t, 0) == [y]
  {
    assert [x, y][..0] + [x, y][1..] == [y];
  }

  /** The outcome of one candidate: the book, the per-call placed count and
      the order offered to the signal list, if any. */
  datatype Placed = Placed(book: Book, placed: nat, signal: Option<PaperTrade>)

  /** Whether a candidate's order is placed: no visible pending buy or
      active order of its symbol (on any timeframe), a stop-profit at least
      the minimum-profit price, and fewer than two orders placed so far. */
  predicate PlacementAllowed(b: Book, c: BullishCandidate, placed: nat) {
    var buy := BuyPrice(c.priceRecord.close);
    && !HasPendingOrder(b.pendingBuys, c.priceRecord.symbol)
    && !HasPendingOrder(b.active, c.priceRecord.symbol)
    && StopProfit(buy, c.timeFrame, c.strategy) >= MinProfitSellPrice(buy)
    && placed <= SessionOrderPlaceLimit
  }

  /** One candidate of `placePendingBuyOrder`. A divergence on the dominant
      symbol raises the active-order limit; an allowed order evicts outbid
      pending buys and goes to the front of the pending list; the order is
      offered to the signal list unless its symbol recently lost. */
  function PlaceFor(b: Book, c: BullishCandidate, placed: nat, now: int, round: real -> real): (r: Placed)
    requires c.priceRecord.close != 0.0
    ensures r.book == b.(pendingBuys := r.book.pendingBuys, activeOrderLimit := r.book.activeOrderLimit)
    ensures r.book.activeOrderLimit ==
      if c.priceRecord.symbol == DominantSymbol && c.strategy == RsiBullishDivergence
      then BoostedActiveOrderLimit else b.activeOrderLimit
    ensures r.placed == placed + 1 <==>
      && !HasPendingOrder(b.pendingBuys, c.priceRecord.symbol)
      && !HasPendingOrder(b.active, c.priceRecord.symbol)
      && c.priceRecord.close > 0.0
      && placed <= SessionOrderPlaceLimit
    ensures r.placed == placed || r.placed == placed + 1
    ensures r.placed == placed ==> r.book.pendingBuys == b.pendingBuys
    ensures r.placed == placed + 1 ==>
      && |r.book.pendingBuys| > 0
      && r.book.pendingBuys[0] == NewTrade(b, c, now, round)
      && multiset(r.book.pendingBuys[1..]) <= multiset(b.pendingBuys)
      && forall x | x in b.pendingBuys && !Outbid(NewTrade(b, c, now, round), x) :: x in r.book.pendingBuys[1..]
    ensures r.signal.Some? <==> c.priceRecord.symbol !in b.recentlyLost
    ensures r.signal.Some? ==> r.signal.value == NewTrade(b, c, now, round)
  {
    var limit :=
      if c.priceRecord.symbol == DominantSymbol && c.strategy == RsiBullishDivergence
      then BoostedActiveOrderLimit else b.activeOrderLimit;
    var t := NewTrade(b, c, now, round);
    var buy := BuyPrice(c.priceRecord.close);
    ProfitGatePassesIffPriceNonNegative(buy, c.timeFrame, c.strategy);
    var signal := if c.priceRecord.symbol in b.recentlyLost then None else Some(t);
    if PlacementAllowed(b, c, placed) then
      var buys := [t] + Evict(b.pendingBuys, t, 0);
      assert buys[1..] == Evict(b.pendingBuys, t, 0);
      Placed(b.(pendingBuys := buys, activeOrderLimit := limit), placed + 1, signal)
    else Placed(b.(activeOrderLimit := limit), placed, signal)
  }

  /** A divergence on the dominant symbol. */
  predicate Boosts(c: BullishCandidate) {
    c.priceRecord.symbol == DominantSymbol && c.strategy == RsiBullishDivergence
  }

  /** One candidate of the loop over the bullish list: placed exactly when
      `PlacementAllowed` holds, offered as a signal exactly when its symbol
      has not recently lost, and nothing but the pending list and the
      active-order limit changes. */
  method PlaceOne(b: Book, c: BullishCandidate, placed: nat, now: int, round: real -> real)
    returns (r: Book, placedAfter: nat, signal: Option<PaperTrade>)
    requires c.priceRecord.close != 0.0
    ensures Placed(r, placedAfter, signal) == PlaceFor(b, c, placed, now, round)
    ensures r == b.(pendingBuys := r.pendingBuys, activeOrderLimit := r.activeOrderLimit)
    ensures r.activeOrderLimit == if Boosts(c) then BoostedActiveOrderLimit else b.activeOrderLimit
    ensures placedAfter == placed + 1 <==> PlacementAllowed(b, c, placed)
    ensures placedAfter == placed || placedAfter == placed + 1
    ensures placedAfter == placed + 1 ==> r.pendingBuys[0] == NewTrade(b, c, now, round)
    ensures |r.pendingBuys| <= |b.pendingBuys| + (placedAfter - placed)
    ensures placedAfter == placed ==> r.pendingBuys == b.pendingBuys
    ensures signal.Some? <==> c.priceRecord.symbol !in b.recentlyLost
    ensures signal.Some? ==> signal.value == NewTrade(b, c, now, round)
  {
    var step := PlaceFor(b, c, placed, now, round);
    ProfitGatePassesIffPriceNonNegative(BuyPrice(c.priceRecord.close), c.timeFrame, c.strategy);
    if step.placed == placed + 1 {
      assert |step.book.pendingBuys[1..]| == |multiset(step.book.pendingBuys[1..])|;
    }
    r, placedAfter, signal := step.book, step.placed, step.signal;
  }

  /** Every candidate has a close to derive a buy price from. */
  predicate Priced(cs: seq<BullishCandidate>) {
    forall i :: 0 <= i < |cs| ==> cs[i].priceRecord.close != 0.0
  }

  /** The book and placed count after a run of candidates. */
  datatype Placement = Placement(book: Book, placed: nat)

  /** Reference for the loop of `placePendingBuyOrder`: each candidate in
      turn handled by `PlaceFor` against the book and count the earlier
      ones left. */
  function PlaceAll(b: Book, cs: seq<BullishCandidate>, now: int, round: real -> real): (r: Placement)
    requires Priced(cs)
    ensures r.book == b.(pendingBuys := r.book.pendingBuys, activeOrderLimit := r.book.activeOrderLimit)
    ensures r.placed <= SessionOrderPlaceLimit + 1
    ensures |r.book.pendingBuys| <= |b.pendingBuys| + r.placed
    ensures r.placed == 0 ==> r.book.pendingBuys == b.pendingBuys
    decreases |cs|
  {
    if |cs| == 0 then Placement(b, 0)
    else
      var n := |cs| - 1;
      var before := PlaceAll(b, cs[..n], now, round);
      var step := PlaceFor(before.book, cs[n], before.placed, now, round);
      assert |step.book.pendingBuys| <= |before.book.pendingBuys| + (step.placed - before.placed) by {
        if step.placed == before.placed + 1 {
          assert |step.book.pendingBuys[1..]| == |multiset(step.book.pendingBuys[1..])|;
        }
      }
      Placement(step.book, step.placed)
  }

  lemma BoostsSplit(cs: seq<BullishCandidate>, init: seq<BullishCandidate>)
    requires |cs| > 0 && init == cs[..|cs| - 1]
    ensures (exists i :: 0 <= i < |cs| && Boosts(cs[i])) <==>
      (exists i :: 0 <= i < |init| && Boosts(init[i])) || Boosts(cs[|cs| - 1])
  {
    if exists i :: 0 <= i < |cs| && Boosts(cs[i]) {
      var i :| 0 <= i < |cs| && Boosts(cs[i]);
      if i < |cs| - 1 {
        assert init[i] == cs[i];
      }
    }
    if exists i :: 0 <= i < |cs| - 1 && Boosts(init[i]) {
      var i :| 0 <= i < |cs| - 1 && Boosts(init[i]);
      assert cs[i] == init[i];
    }
  }

  /** A divergence candidate on the dominant symbol anywhere in the run
      leaves the boosted active-order limit; without one the limit stays. */
  lemma {:induction false} PlaceAllBoost(b: Book, cs: seq<BullishCandidate>, now: int, round: real -> real)
    requires Priced(cs)
    ensures (exists i :: 0 <= i < |cs| && Boosts(cs[i])) ==>
      PlaceAll(b, cs, now, round).book.activeOrderLimit == BoostedActiveOrderLimit
    ensures (forall i :: 0 <= i < |cs| ==> !Boosts(cs[i])) ==>
      PlaceAll(b, cs, now, round).book.activeOrderLimit == b.activeOrderLimit
    decreases |cs|
  {
    if |cs| > 0 {
      var n := |cs| - 1;
      var init := cs[..n];
      PlaceAllBoost(b, init, now, round);
      var limit := PlaceAll(b, init, now, round).book.activeOrderLimit;
      assert PlaceAll(b, cs, now, round).book.activeOrderLimit ==
        if Boosts(cs[n]) then BoostedActiveOrderLimit else limit;
      BoostsSplit(cs, init);
    }
  }

  /** Reference for the signals of `placePendingBuyOrder`: the order built
      for each candidate whose symbol has not recently lost, in candidate
      order. */
  function Signals(b: Book, cs: seq<BullishCandidate>, now: int, round: real -> real): (r: seq<PaperTrade>)
    requires Priced(cs)
    ensures |r| <= |cs|
    ensures forall t | t in r :: t.symbol !in b.recentlyLost
    decreases |cs|
  {
    if |cs| == 0 then []
    else
      var last := cs[|cs| - 1];
      Signals(b, cs[..|cs| - 1], now, round) +
        (if last.priceRecord.symbol in b.recentlyLost then [] else [NewTrade(b, last, now, round)])
  }

  /** The last of a run of candidates is placed exactly when
      `PlacementAllowed` holds against the book and count the candidates
      before it left; the count otherwise stays. */
  lemma PlaceAllTurn(b: Book, cs: seq<BullishCandidate>, now: int, round: real -> real)
    requires Priced(cs) && |cs| > 0
    ensures var before := PlaceAll(b, cs[..|cs| - 1], now, round);
      var after := PlaceAll(b, cs, now, round);
      && (after.placed == before.placed + 1 <==> PlacementAllowed(before.book, cs[|cs| - 1], before.placed))
      && (after.placed == before.placed || after.placed == before.placed + 1)
      && (after.placed == before.placed + 1 ==>
            |after.book.pendingBuys| > 0 && after.book.pendingBuys[0] == NewTrade(before.book, cs[|cs| - 1], now, round))
  {
    var c := cs[|cs| - 1];
    ProfitGatePassesIffPriceNonNegative(BuyPrice(c.priceRecord.close), c.timeFrame, c.strategy);
  }

  /** One more candidate: the reference fold and signals take one step. */
  lemma PlaceAllStep(b: Book, cs: seq<BullishCandidate>, i: nat, now: int, round: real -> real)
    requires Priced(cs) && i < |cs|
    ensures var before := PlaceAll(b, cs[..i], now, round);
      var step := PlaceFor(before.book, cs[i], before.placed, now, round);
      && PlaceAll(b, cs[..i + 1], now, round) == Placement(step.book, step.placed)
      && Signals(b, cs[..i + 1], now, round) ==
           Signals(b, cs[..i], now, round) +
             (if cs[i].priceRecord.symbol in b.recentlyLost then [] else [NewTrade(b, cs[i], now, round)])
  {
    assert cs[..i + 1][..i] == cs[..i];
  }

  /** The signals are exactly the orders built for the candidates whose
      symbol has not recently lost. */
  lemma {:induction false} SignalsOfUnlost(b: Book, cs: seq<BullishCandidate>, now: int, round: real -> real)
    requires Priced(cs)
    ensures forall t :: t in Signals(b, cs, now, round) <==>
      exists i :: 0 <= i < |cs| && cs[i].priceRecord.symbol !in b.recentlyLost && t == NewTrade(b, cs[i], now, round)
    decreases |cs|
  {
    if |cs| > 0 {
      var n := |cs| - 1;
      var init := cs[..n];
      SignalsOfUnlost(b, init, now, round);
      assert forall i :: 0 <= i < n ==> init[i] == cs[i];
    }
  }

  /** `placePendingBuyOrder` over the bullish list. The book and count are
      those of `PlaceAll`, so each candidate is placed exactly when
      `PlacementAllowed` holds at its turn; at most two orders are placed
      per call (the limit check is `<=` on a limit of one); only the pending
      list and the active-order limit change; and the signals are `Signals`,
      the orders of the candidates whose symbol had not recently lost. */
  method PlacePendingBuyOrder(b: Book, candidates: seq<BullishCandidate>, now: int, round: real -> real)
    returns (r: Book, placed: nat, signals: seq<PaperTrade>)
    requires Priced(candidates)
    ensures Placement(r, placed) == PlaceAll(b, candidates, now, round)
    ensures signals == Signals(b, candidates, now, round)
    ensures r == b.(pendingBuys := r.pendingBuys, activeOrderLimit := r.activeOrderLimit)
    ensures placed <= SessionOrderPlaceLimit + 1
    ensures |r.pendingBuys| <= |b.pendingBuys| + placed
    ensures placed == 0 ==> r.pendingBuys == b.pendingBuys
    ensures |signals| <= |candidates|
    ensures forall t | t in signals :: t.symbol !in b.recentlyLost
    ensures (exists i :: 0 <= i < |candidates| && Boosts(candidates[i])) ==>
      r.activeOrderLimit == BoostedActiveOrderLimit
    ensures (forall i :: 0 <= i < |candidates| ==> !Boosts(candidates[i])) ==>
      r.activeOrderLimit == b.activeOrderLimit
  {
    r, placed, signals := b, 0, [];
    var i := 0;
    while i < |candidates|
      invariant 0 <= i <= |candidates|
      invariant Placement(r, placed) == PlaceAll(b, candidates[..i], now, round)
      invariant signals == Signals(b, candidates[..i], now, round)
    {
      PlaceAllStep(b, candidates, i, now, round);
      ghost var before := PlaceAll(b, candidates[..i], now, round);
      var signal;
      r, placed, signal := PlaceOne(r, candidates[i], placed, now, round);
      assert NewTrade(before.book, candidates[i], now, round) == NewTrade(b, candidates[i], now, round);
      if signal.Some? {
        signals := signals + [signal.value];
      }
      i := i + 1;
    }
    assert candidates[..i] == candidates;
    PlaceAllBoost(b, candidates, now, round);
  }

  /** The sell-everything loop of a pause skips every second order: of two
      active orders that are closed at neither stop, the second stays
      active. */
  lemma PauseLeavesSecondOrderActive(b: Book, round: real -> real)
    requires BookInv(b) && Pausing(b)
    requires |b.active| == 2
    requires forall j :: 0 <= j < 2 ==>
      b.active[j].isHiddenTrade && b.active[j].stopLoss < b.active[j].currentPrice < b.active[j].stopProfit
    ensures PauseOrResume(b, round).active == [b.active[1]]
  {
    var hidden := b.(placingAllowed := false, pendingBuys := SetHidden(b.pendingBuys, true));
    var closed := CloseTrade(hidden, 0, round);
    assert closed.active == [b.active[1]];
    assert closed.statusStack == b.statusStack;
    assert !Pausing(closed);
    assert NextPlacingAllowed(closed.placingAllowed, closed.statusStack) == false;
    assert PauseOrResume(closed, round) == closed;
    assert SellActiveOrder(hidden, 0, round) == closed;
    assert SellAll(closed, 1, round) == closed;
    assert SellAll(hidden, 0, round) == SellAll(SellActiveOrder(hidden, 0, round), 1, round);
    assert Pause(b, round) == SellAll(hidden, 0, round);
  }

  /** The handler of a minute's latest prices: fill pending buys, then sell
      active orders. It keeps the invariant and the capital. */
  method OnLatestPrices(b: Book, latest: ChartSchedule.ChartData, now: int, round: real -> real) returns (r: Book)
    requires BookInv(b) && ChartSchedule.NonEmptyRows(latest)
    ensures BookInv(r)
    ensures Capital(r) == Capital(b)
    ensures r.activeOrderLimit == b.activeOrderLimit
    ensures RoundKeepsSign(round) && NonNegativePrices(latest) && Solvent(b) ==> Solvent(r)
  {
    var filled, fills, expired, trace := TriggerPendingBuyOrders(b, latest, now);
    FillingKeepsCapital(b, filled, fills);
    r := TriggerActiveSellOrders(filled, latest, now, 0, round);
    if RoundKeepsSign(round) && NonNegativePrices(latest) && Solvent(b) {
      FillingKeepsSolvent(b, latest, filled, fills, trace);
      TickKeepsSolvent(filled, latest, now, 0, round);
    }
  }

  /** The handler of a session's candidates: sell active orders of bearish
      symbol-timeframe pairs, then place orders for the bullish ones. It
      keeps the invariant and the capital. */
  method OnTradeSource(b: Book, source: PaperTradeSource, now: int, round: real -> real)
    returns (r: Book, signals: seq<PaperTrade>)
    requires BookInv(b)
    requires Priced(source.bullishList)
    ensures BookInv(r)
    ensures Capital(r) == Capital(b)
    ensures |r.active| <= |b.active|
    ensures RoundKeepsSign(round) && Solvent(b) ==> Solvent(r)
  {
    var sold := SellIfTimeFrameIsBearish(b, source.bearishList, round);
    var placed;
    r, placed, signals := PlacePendingBuyOrder(sold, source.bullishList, now, round);
    if RoundKeepsSign(round) && Solvent(b) {
      BearishSaleKeepsSolvent(b, source.bearishList, round);
      PlacingKeepsSolvent(sold, source.bullishList, now, round);
    }
  }

  /** The rounding maps non-negative amounts to non-negative amounts. */
  ghost predicate RoundKeepsSign(round: real -> real) {
    forall x: real :: x >= 0.0 ==> round(x) >= 0.0
  }

  /** Every newest minute row has a non-negative close. */
  predicate NonNegativePrices(latest: ChartSchedule.ChartData) {
    forall s | s in latest && |latest[s]| > 0 :: latest[s][0].close >= 0.0
  }

  /** Orders hold non-negative amounts. */
  predicate NonNegativeAmounts(orders: seq<PaperTrade>) {
    forall x | x in orders :: x.amount >= 0.0
  }

  /** The balance is not negative, no order holds a negative amount, and no
      active order a negative price. */
  predicate Solvent(b: Book) {
    && b.balance >= 0.0
    && NonNegativeAmounts(b.pendingBuys)
    && NonNegativeAmounts(b.active)
    && forall x | x in b.active :: x.currentPrice >= 0.0
  }

  lemma AmountsApartFromHiding(a: seq<PaperTrade>, c: seq<PaperTrade>)
    requires SameApartFromHiding(a, c) && NonNegativeAmounts(a)
    ensures NonNegativeAmounts(c)
  {
    forall x | x in c
      ensures x.amount >= 0.0
    {
      var i :| 0 <= i < |c| && c[i] == x;
      assert a[i] in a;
    }
  }

  /** A sale credits a non-negative amount. */
  lemma CloseTradeKeepsSolvent(b: Book, i: nat, round: real -> real)
    requires BookInv(b) && i < |b.active| && Solvent(b) && RoundKeepsSign(round)
    ensures Solvent(CloseTrade(b, i, round))
  {
    var t := b.active[i];
    assert t in b.active;
    assert t.amount * t.currentPrice >= 0.0;
    var r := CloseTrade(b, i, round);
    forall x | x in r.active
      ensures x in b.active
    {
      assert x in b.active[..i] || x in b.active[i + 1..];
    }
  }

  /** A sale and the pause or resume after it keep the book solvent. */
  lemma {:induction false} SellActiveOrderKeepsSolvent(b: Book, i: nat, round: real -> real)
    requires BookInv(b) && i < |b.active| && Solvent(b) && RoundKeepsSign(round)
    ensures Solvent(SellActiveOrder(b, i, round))
    decreases |b.active|, 0, 0
  {
    CloseTradeKeepsSolvent(b, i, round);
    PauseOrResumeKeepsSolvent(CloseTrade(b, i, round), round);
  }

  lemma {:induction false} PauseOrResumeKeepsSolvent(b: Book, round: real -> real)
    requires BookInv(b) && Solvent(b) && RoundKeepsSign(round)
    ensures Solvent(PauseOrResume(b, round))
    decreases |b.active|, 2, 0
  {
    var r := PauseOrResume(b, round);
    if Pausing(b) {
      PauseKeepsSolvent(b, round);
    } else {
      AmountsApartFromHiding(b.pendingBuys, r.pendingBuys);
    }
  }

  lemma {:induction false} PauseKeepsSolvent(b: Book, round: real -> real)
    requires BookInv(b) && Solvent(b) && RoundKeepsSign(round)
    ensures Solvent(Pause(b, round))
    decreases |b.active|, 1, |b.active| + 1
  {
    var hidden := b.(placingAllowed := false, pendingBuys := SetHidden(b.pendingBuys, true));
    AmountsApartFromHiding(b.pendingBuys, hidden.pendingBuys);
    SellAllKeepsSolvent(hidden, 0, round);
  }

  lemma {:induction false} SellAllKeepsSolvent(b: Book, k: nat, round: real -> real)
    requires BookInv(b) && Solvent(b) && RoundKeepsSign(round)
    ensures Solvent(SellAll(b, k, round))
    decreases |b.active|, 1, |b.active| - k
  {
    if k < |b.active| {
      SellActiveOrderKeepsSolvent(b, k, round);
      SellAllKeepsSolvent(SellActiveOrder(b, k, round), k + 1, round);
    }
  }

  lemma {:induction false} SellMatchingKeepsSolvent(b: Book, bear: BearishCandidate, k: nat, round: real -> real)
    requires BookInv(b) && Solvent(b) && RoundKeepsSign(round)
    ensures Solvent(SellMatching(b, bear, k, round))
    decreases |b.active| - k
  {
    if k < |b.active| {
      if MatchesBear(b.active[k], bear) {
        SellActiveOrderKeepsSolvent(b, k, round);
        SellMatchingKeepsSolvent(SellActiveOrder(b, k, round), bear, k + 1, round);
      } else {
        SellMatchingKeepsSolvent(b, bear, k + 1, round);
      }
    }
  }

  lemma {:induction false} BearishSaleKeepsSolvent(b: Book, bears: seq<BearishCandidate>, round: real -> real)
    requires BookInv(b) && Solvent(b) && RoundKeepsSign(round)
    ensures Solvent(SellIfTimeFrameIsBearish(b, bears, round))
    decreases |bears|
  {
    if |bears| > 0 {
      BearishSaleKeepsSolvent(b, bears[..|bears| - 1], round);
      var before := SellIfTimeFrameIsBearish(b, bears[..|bears| - 1], round);
      SellMatchingKeepsSolvent(before, bears[|bears| - 1], 0, round);
    }
  }

  lemma {:induction false} TickKeepsSolvent(b: Book, latest: ChartSchedule.ChartData, now: int, k: nat,
                                            round: real -> real)
    requires BookInv(b) && ChartSchedule.NonEmptyRows(latest) && NonNegativePrices(latest)
    requires Solvent(b) && RoundKeepsSign(round)
    ensures Solvent(TriggerActiveSellOrders(b, latest, now, k, round))
    decreases |b.active| - k
  {
    if k < |b.active| {
      var t := b.active[k];
      if t.symbol in latest {
        var live := LivePrice(latest, t.symbol);
        var active := b.active[k := t.(currentPrice := live)];
        var priced := b.(active := active);
        assert t in b.active;
        assert Solvent(priced) by {
          forall x | x in active
            ensures x.amount >= 0.0 && x.currentPrice >= 0.0
          {
            var j :| 0 <= j < |active| && active[j] == x;
            assert j != k ==> b.active[j] in b.active;
          }
        }
        VisibleCountOfUpdate(b.active, k, t.(currentPrice := live));
        if ShouldSell(t, live, now) {
          SellActiveOrderKeepsSolvent(priced, k, round);
          TickKeepsSolvent(SellActiveOrder(priced, k, round), latest, now, k + 1, round);
        } else {
          TickKeepsSolvent(priced, latest, now, k + 1, round);
        }
      } else {
        TickKeepsSolvent(b, latest, now, k + 1, round);
      }
    }
  }

  /** Filling pending buys keeps the book solvent: a visible fill needs a
      balance above one order's amount, and every fill carries a live
      price. */
  lemma FillingKeepsSolvent(b: Book, latest: ChartSchedule.ChartData, r: Book, fills: seq<PaperTrade>,
                            trace: BuyTrace)
    requires ChartSchedule.NonEmptyRows(latest) && NonNegativePrices(latest) && Solvent(b)
    requires r.active == b.active + fills
    requires Traced(b.pendingBuys, fills, trace.filled) && Traced(b.pendingBuys, r.pendingBuys, trace.kept)
    requires forall f | f in fills :: f.symbol in latest && f.currentPrice == LivePrice(latest, f.symbol)
    requires r.balance == b.balance - MinTradeAmountUsd * VisibleCount(fills) as real
    requires VisibleCount(fills) <= 1 && (|fills| > 0 ==> BalanceIsEnough(b.balance))
    ensures Solvent(r)
  {
    forall x | x in r.active
      ensures x.amount >= 0.0 && x.currentPrice >= 0.0
    {
      if x !in b.active {
        assert x in fills;
        var j :| 0 <= j < |fills| && fills[j] == x;
        assert b.pendingBuys[trace.filled[j]] in b.pendingBuys;
      }
    }
    forall x | x in r.pendingBuys
      ensures x.amount >= 0.0
    {
      var j :| 0 <= j < |r.pendingBuys| && r.pendingBuys[j] == x;
      assert b.pendingBuys[trace.kept[j]] in b.pendingBuys;
    }
  }

  /** An order placed from a candidate holds a non-negative amount: it is
      placed only for a positive close. */
  lemma PlaceForKeepsSolvent(b: Book, c: BullishCandidate, placed: nat, now: int, round: real -> real)
    requires c.priceRecord.close != 0.0 && Solvent(b) && RoundKeepsSign(round)
    ensures Solvent(PlaceFor(b, c, placed, now, round).book)
  {
    var step := PlaceFor(b, c, placed, now, round);
    if step.placed == placed + 1 {
      NewTradeAmount(b, c, now, round);
      var buys := step.book.pendingBuys;
      assert NonNegativeAmounts(buys) by {
        forall x | x in buys
          ensures x.amount >= 0.0
        {
          var j :| 0 <= j < |buys| && buys[j] == x;
          if j > 0 {
            MultisetSubsetMember(buys[1..], b.pendingBuys, x);
          }
        }
      }
    }
  }

  lemma NewTradeAmount(b: Book, c: BullishCandidate, now: int, round: real -> real)
    requires c.priceRecord.close > 0.0 && RoundKeepsSign(round)
    ensures NewTrade(b, c, now, round).amount >= 0.0
  {
    var buy := BuyPrice(c.priceRecord.close);
    assert buy > 0.0;
    assert MinTradeAmountUsd / buy >= 0.0;
  }

  lemma MultisetSubsetMember(s: seq<PaperTrade>, t: seq<PaperTrade>, x: PaperTrade)
    requires multiset(s) <= multiset(t) && x in s
    ensures x in t
  {
    assert x in multiset(s);
  }

  /** Placing a run of candidates keeps the book solvent. */
  lemma {:induction false} PlacingKeepsSolvent(b: Book, cs: seq<BullishCandidate>, now: int, round: real -> real)
    requires Priced(cs) && Solvent(b) && RoundKeepsSign(round)
    ensures Solvent(PlaceAll(b, cs, now, round).book)
    decreases |cs|
  {
    if |cs| > 0 {
      var n := |cs| - 1;
      PlacingKeepsSolvent(b, cs[..n], now, round);
      var before := PlaceAll(b, cs[..n], now, round);
      PlaceForKeepsSolvent(before.book, cs[n], before.placed, now, round);
    }
  }
}
