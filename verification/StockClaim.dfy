/** The claim of `deliverFromPool` (packages/core/src/delivery.ts) at the grain of row locks: a
    transaction reads, locks one row with FOR UPDATE SKIP LOCKED, and commits or aborts later.

    Reads see committed rows only. An uncommitted SOLD shows as the lock its transaction holds. */
module StockClaim {
  import opened Schema
  import opened Sums
  import opened Orders
  import opened Delivery

  datatype Tx =
    | Seeking(order: Id, plan: Id)               // found no item of its own
    | Found(order: Id, item: Id)                 // found its own item, has not locked it yet
    | Holding(order: Id, item: Id, unowned: bool)  // holds the row lock, update uncommitted

  /** `closed` are the orders that have failed, expired or been refunded; `won` and `lost` are the
      transactions that have committed and those that have rolled back. `exposed` is remembered for the
      proofs: the items some claim has endangered. */
  datatype Pool = Pool(stock: seq<StockItem>, closed: set<Id>, open: map<nat, Tx>, won: set<nat>, lost: set<nat>, exposed: set<Id>)

  datatype Event =
    | Begin(tx: nat, order: Id, plan: Id)
    | Lock(tx: nat)
    | Commit(tx: nat)
    | Abort(tx: nat)
    | Close(order: Id)
    | Reopen(order: Id)                          // a late markDelivering lands on a closed order
    | Reserve(item: Id, order: Id)
    | Restock(plan: Id, payload: string)
    | Discard(item: Id)

  function Locked(open: map<nat, Tx>): set<Id> {
    set t | t in open && open[t].Holding? :: open[t].item
  }

  predicate OwnsAnother(stock: seq<StockItem>, o: Id, i: Id) {
    exists j: Id :: j < |stock| && j != i && stock[j].order == Some(o)
  }

  predicate OwnsNone(stock: seq<StockItem>, o: Id) {
    forall i: Id | i < |stock| :: stock[i].order != Some(o)
  }

  /** A claim of an order without an item that goes by an earlier read: the item it goes for has been
      released since, and is there for others or has gone to one. */
  predicate Overtaken(stock: seq<StockItem>, tx: Tx) {
    && OwnsNone(stock, tx.order)
    && match tx
       case Seeking(_, _) => false
       case Found(_, i) => i < |stock| && !stock[i].status.Deleted?
       case Holding(_, i, unowned) => !unowned && i < |stock| && stock[i].order.Some?
  }

  predicate Endangers(s: Pool, t: nat) {
    t in s.open && s.open[t].order !in s.closed && Overtaken(s.stock, s.open[t])
  }

  function Dangers(stock: seq<StockItem>, open: map<nat, Tx>, closed: set<Id>): set<Id> {
    set t | t in open && open[t].order !in closed && Overtaken(stock, open[t]) :: open[t].item
  }

  function RolledBack(s: Pool, t: nat): Pool {
    s.(open := s.open - {t}, lost := s.lost + {t})
  }

  function Apply(s: Pool, e: Event): Pool {
    var s' := Step(s, e);
    s'.(exposed := s.exposed + Dangers(s'.stock, s'.open, s'.closed))
  }

  function Step(s: Pool, e: Event): Pool {
    match e
    case Begin(t, o, plan) =>
      if t in s.open || t in s.won || t in s.lost || o in s.closed then s
      else
        var owned := OwnedItem(s.stock, o);
        s.(open := s.open[t := if owned.Some? then Found(o, owned.value) else Seeking(o, plan)])
    case Lock(t) => if t in s.open then Locks(s, t) else s
    case Commit(t) =>
      if t !in s.open || !s.open[t].Holding? then s
      else
        var o, i := s.open[t].order, s.open[t].item;
        // markDelivered refuses an order that was closed; StockItem.orderId is unique
        if o in s.closed || i >= |s.stock| || OwnsAnother(s.stock, o, i) then RolledBack(s, t)
        else s.(stock := Sell(s.stock, i, o), open := s.open - {t}, won := s.won + {t})
    case Abort(t) => if t in s.open then RolledBack(s, t) else s
    case Close(o) =>
      // the update waits for the lock on a row it would release
      if exists i: Id :: i in Locked(s.open) && i < |s.stock| && s.stock[i].order == Some(o) && s.stock[i].status.Reserved? then s
      else s.(stock := ReleaseReserved(s.stock, o), closed := s.closed + {o})
    case Reopen(o) => s.(closed := s.closed - {o})
    case Reserve(i, o) =>
      if i < |s.stock| && s.stock[i].status.Available? && i !in Locked(s.open) && o !in s.closed && OwnedItem(s.stock, o).None?
      then s.(stock := s.stock[i := s.stock[i].(status := Reserved, order := Some(o))])
      else s
    case Restock(plan, payload) => s.(stock := s.stock + [StockItem(plan, payload, Available, None)])
    case Discard(i) =>
      // an admin's delete of an AVAILABLE item waits for the lock on its row
      if i < |s.stock| && s.stock[i].status.Available? && i !in Locked(s.open)
      then s.(stock := s.stock[i := s.stock[i].(status := Deleted)])
      else s
  }

  function Locks(s: Pool, t: nat): Pool
    requires t in s.open
  {
    match s.open[t]
    case Seeking(o, plan) =>
      var item := FirstAvailable(s.stock, plan, Locked(s.open));
      if item.None? then RolledBack(s, t) else s.(open := s.open[t := Holding(o, item.value, true)])
    case Found(o, i) =>
      if i in Locked(s.open) then s
      else if i < |s.stock| && s.stock[i].status.Deleted? then RolledBack(s, t)  // no row to update
      else s.(open := s.open[t := Holding(o, i, false)])
    case Holding(_, _, _) => s
  }

  function Run(s: Pool, events: seq<Event>): Pool
    decreases events
  {
    if events == [] then s else Run(Apply(s, events[0]), events[1..])
  }

  function Start(stock: seq<StockItem>): Pool {
    Pool(stock, {}, map[], {}, {}, {})
  }

  // ---------------------------------------------------------------- every interleaving

  /** An AVAILABLE or deleted item has no owner, any other has one, and no order owns two. */
  predicate OneOwner(stock: seq<StockItem>) {
    && (forall i: Id | i < |stock| :: stock[i].status.Available? || stock[i].status.Deleted? <==> stock[i].order.None?)
    && (forall i: Id, j: Id | i < |stock| && j < |stock| && stock[i].order.Some? && stock[i].order == stock[j].order :: i == j)
  }

  predicate TxOk(stock: seq<StockItem>, tx: Tx) {
    match tx
    case Seeking(_, _) => true
    case Found(_, i) => i < |stock|
    case Holding(_, i, unowned) => i < |stock| && !stock[i].status.Deleted? && (unowned ==> stock[i].status.Available?)
  }

  predicate OneHolder(open: map<nat, Tx>) {
    forall t, u | t in open && u in open && open[t].Holding? && open[u].Holding? && open[t].item == open[u].item :: t == u
  }

  predicate Inv(s: Pool) {
    && OneOwner(s.stock)
    && (forall i: Id | i < |s.stock| && s.stock[i].status.Reserved? :: s.stock[i].order.value !in s.closed)
    && (forall t | t in s.open :: TxOk(s.stock, s.open[t]))
    && OneHolder(s.open)
    && Dangers(s.stock, s.open, s.closed) <= s.exposed
  }

  /** No item appears but by restocking or vanishes but by deletion, none changes its plan or its payload,
      a deleted one stays deleted, and a SOLD one that is not exposed stays SOLD to its order. */
  predicate Conserves(a: seq<StockItem>, b: seq<StockItem>, exposed: set<Id>) {
    && |a| <= |b|
    && (forall i: Id | i < |a| :: b[i].plan == a[i].plan && b[i].payload == a[i].payload)
    && (forall i: Id | i < |a| && a[i].status.Deleted? :: b[i] == a[i])
    && (forall i: Id | i < |a| && a[i].status.Sold? && i !in exposed :: b[i] == a[i])
  }

  ghost predicate Keeps(s: Pool, s': Pool) {
    Inv(s') && Conserves(s.stock, s'.stock, s'.exposed) && s.exposed <= s'.exposed
  }

  lemma CommitKeeps(s: Pool, t: nat)
    requires Inv(s)
    ensures Keeps(s, Apply(s, Commit(t)))
  {
    var s' := Step(s, Commit(t));
    if t in s.open && s.open[t].Holding? {
      assert TxOk(s.stock, s.open[t]);
      assert Endangers(s, t) ==> s.open[t].item in Dangers(s.stock, s.open, s.closed);
      forall u | u in s'.open ensures TxOk(s'.stock, s'.open[u]) {
        assert TxOk(s.stock, s.open[u]);
      }
    }
    hide Dangers;
  }

  lemma CloseKeeps(s: Pool, o: Id)
    requires Inv(s)
    ensures Keeps(s, Apply(s, Close(o)))
  {
    var s' := Step(s, Close(o));
    if s' != s {
      assert s'.stock == ReleaseReserved(s.stock, o);
      forall u | u in s'.open ensures TxOk(s'.stock, s'.open[u]) {
        assert TxOk(s.stock, s.open[u]);
      }
      forall i: Id, j: Id | i < |s'.stock| && j < |s'.stock| && s'.stock[i].order.Some? && s'.stock[i].order == s'.stock[j].order
        ensures i == j
      {
        assert s.stock[i].order == s.stock[j].order;
      }
    }
    hide Dangers;
  }

  lemma LockKeeps(s: Pool, t: nat)
    requires Inv(s)
    ensures Keeps(s, Apply(s, Lock(t)))
  {
    hide Dangers;
    if t in s.open {
      assert TxOk(s.stock, s.open[t]);
      forall u | u in s.open && s.open[u].Holding? ensures s.open[u].item in Locked(s.open) {
      }
    }
  }

  /** The environment: an item nobody holds locked is reserved or deleted, or one is added. */
  lemma EditKeeps(s: Pool, e: Event)
    requires Inv(s) && (e.Reserve? || e.Restock? || e.Discard?)
    ensures Keeps(s, Apply(s, e))
  {
    hide Dangers;
    var s' := Step(s, e);
    forall u | u in s'.open ensures TxOk(s'.stock, s'.open[u]) {
      assert TxOk(s.stock, s.open[u]);
      if s.open[u].Holding? { assert s.open[u].item in Locked(s.open); }
    }
  }

  lemma OpenKeeps(s: Pool, e: Event)
    requires Inv(s) && (e.Begin? || e.Abort? || e.Reopen?)
    ensures Keeps(s, Apply(s, e))
  {
    hide Dangers;
  }

  lemma StepKeeps(s: Pool, e: Event)
    requires Inv(s)
    ensures Keeps(s, Apply(s, e))
  {
    hide *;
    match e {
      case Commit(t) => CommitKeeps(s, t);
      case Close(o) => CloseKeeps(s, o);
      case Reopen(_) => OpenKeeps(s, e);
      case Lock(t) => LockKeeps(s, t);
      case Begin(_, _, _) => OpenKeeps(s, e);
      case Abort(_) => OpenKeeps(s, e);
      case Reserve(_, _) => EditKeeps(s, e);
      case Restock(_, _) => EditKeeps(s, e);
      case Discard(_) => EditKeeps(s, e);
    }
  }

  lemma {:induction false} RunKeeps(s: Pool, events: seq<Event>)
    requires Inv(s)
    ensures Keeps(s, Run(s, events))
    decreases events
  {
    hide Apply, Inv;
    if events != [] {
      StepKeeps(s, events[0]);
      RunKeeps(Apply(s, events[0]), events[1..]);
    }
  }

  /** For every interleaving of claims, commits, aborts, closings, reopenings, reservations, restocking and
      deletions: no item is handed to two orders and no order holds two at a time, the pool is conserved, and
      an item handed to an order is that order's for good, unless a reopened order had a claim on it from
      before. */
  lemma HandedOutOnce(stock: seq<StockItem>, events: seq<Event>, later: seq<Event>)
    requires OneOwner(stock) && forall i: Id | i < |stock| :: !stock[i].status.Reserved?
    ensures var a, b := Run(Start(stock), events), Run(Run(Start(stock), events), later);
            && OneOwner(a.stock) && OneOwner(b.stock)
            && Conserves(stock, a.stock, a.exposed) && Conserves(a.stock, b.stock, b.exposed)
            && (forall i: Id | i < |a.stock| && a.stock[i].status.Sold? && i !in b.exposed ::
                  b.stock[i].status.Sold? && b.stock[i].order == a.stock[i].order)
  {
    RunKeeps(Start(stock), events);
    RunKeeps(Run(Start(stock), events), later);
  }

  // ---------------------------------------------------------------- as many winners as items

  function FreeShare(plan: Id): StockItem -> int {
    (item: StockItem) => if item.status.Available? && item.plan == plan then 1 else 0
  }

  /** The AVAILABLE items of a plan. */
  function Free(stock: seq<StockItem>, plan: Id): int {
    Sum(stock, FreeShare(plan))
  }

  /** Transaction `t` claims for its own order; nothing but claims and commits happens. */
  predicate Contends(e: Event, plan: Id, orders: nat -> Id) {
    match e
    case Begin(t, o, p) => o == orders(t) && p == plan
    case Lock(_) => true
    case Commit(_) => true
    case _ => false
  }

  ghost predicate Injective(orders: nat -> Id) {
    forall t, u :: orders(t) == orders(u) ==> t == u
  }

  /** Every transaction under way claims for its own order, which owns nothing before it has won. */
  ghost predicate Entrants(s: Pool, plan: Id, orders: nat -> Id) {
    && s.closed == {}
    && s.won !! s.lost && s.won !! s.open.Keys && s.lost !! s.open.Keys
    && (forall t | t in s.open :: s.open[t].order == orders(t) && !s.open[t].Found?)
    && (forall t | t in s.open && s.open[t].Seeking? :: s.open[t].plan == plan)
    && (forall t | t in s.open && s.open[t].Holding? ::
          s.open[t].unowned && s.open[t].item < |s.stock| && s.stock[s.open[t].item].plan == plan)
    && (forall i: Id, t: nat | i < |s.stock| && s.stock[i].order == Some(orders(t)) :: t in s.won)
  }

  /** Every AVAILABLE item of the plan is locked by somebody. */
  predicate Exhausted(s: Pool, plan: Id) {
    forall i: Id | i < |s.stock| && s.stock[i].status.Available? && s.stock[i].plan == plan :: i in Locked(s.open)
  }

  ghost predicate Contest(s: Pool, plan: Id, n: int, orders: nat -> Id) {
    && Inv(s) && Entrants(s, plan, orders)
    && Free(s.stock, plan) + |s.won| == n
    && (s.lost != {} ==> Exhausted(s, plan))
  }

  lemma LocksKept(s: Pool, s': Pool, plan: Id)
    requires forall t | t in s.open && s.open[t].Holding? :: t in s'.open && s'.open[t] == s.open[t]
    requires Exhausted(s, plan) && s'.stock == s.stock
    ensures Exhausted(s', plan)
  {
    forall j: Id | j in Locked(s.open) ensures j in Locked(s'.open) {
      var u :| u in s.open && s.open[u].Holding? && s.open[u].item == j;
      assert s'.open[u].item == j;
    }
  }

  lemma WinnerEnters(s: Pool, t: nat, plan: Id, orders: nat -> Id)
    requires Inv(s) && Entrants(s, plan, orders) && Injective(orders) && t in s.open && s.open[t].Holding?
    ensures var s' := Apply(s, Commit(t));
            && Entrants(s', plan, orders) && s'.won == s.won + {t} && t !in s.won && s'.lost == s.lost
            && s'.open == s.open - {t} && s.open[t].item < |s.stock|
            && s'.stock == s.stock[s.open[t].item := s.stock[s.open[t].item].(status := Sold, order := Some(orders(t)))]
            && s.stock[s.open[t].item].status.Available? && s.stock[s.open[t].item].plan == plan
  {
    assert TxOk(s.stock, s.open[t]);
    assert !OwnsAnother(s.stock, s.open[t].order, s.open[t].item);
  }

  /** The winner lets go of an item that is AVAILABLE no more. */
  lemma WinnerExhausts(s: Pool, s': Pool, t: nat, plan: Id)
    requires Exhausted(s, plan) && t in s.open && s.open[t].Holding? && s.open[t].item < |s.stock|
    requires s'.open == s.open - {t} && |s'.stock| == |s.stock| && !s'.stock[s.open[t].item].status.Available?
    requires s'.stock == s.stock[s.open[t].item := s'.stock[s.open[t].item]]
    ensures Exhausted(s', plan)
  {
    forall j: Id | j < |s'.stock| && s'.stock[j].status.Available? && s'.stock[j].plan == plan ensures j in Locked(s'.open) {
      var u :| u in s.open && s.open[u].Holding? && s.open[u].item == j;
      assert s'.open[u].item == j;
    }
  }

  lemma WinnerCounts(s: Pool, t: nat, plan: Id, n: int, orders: nat -> Id)
    requires Contest(s, plan, n, orders) && Injective(orders) && t in s.open && s.open[t].Holding?
    ensures Contest(Apply(s, Commit(t)), plan, n, orders)
  {
    var i, s' := s.open[t].item, Apply(s, Commit(t));
    hide Inv, Entrants, Apply, Conserves, Exhausted, Locked;
    CommitKeeps(s, t);
    WinnerEnters(s, t, plan, orders);
    SumUpdate(s.stock, i, s.stock[i].(status := Sold, order := Some(orders(t))), FreeShare(plan));
    if s'.lost != {} {
      WinnerExhausts(s, s', t, plan);
    }
  }

  lemma LockEnters(s: Pool, t: nat, plan: Id, orders: nat -> Id)
    requires Inv(s) && Entrants(s, plan, orders) && t in s.open && s.open[t].Seeking?
    ensures var s' := Apply(s, Lock(t));
            && Entrants(s', plan, orders) && s'.won == s.won && s'.stock == s.stock
            && (s'.lost == s.lost || Exhausted(s, plan))
            && forall u | u in s.open && s.open[u].Holding? :: u in s'.open && s'.open[u] == s.open[u]
  {
    hide Inv, Dangers;
    var o, item := s.open[t].order, FirstAvailable(s.stock, s.open[t].plan, Locked(s.open));
    assert Step(s, Lock(t)) == if item.None? then RolledBack(s, t) else s.(open := s.open[t := Holding(o, item.value, true)]);
  }

  lemma LockCounts(s: Pool, t: nat, plan: Id, n: int, orders: nat -> Id)
    requires Contest(s, plan, n, orders) && t in s.open && s.open[t].Seeking?
    ensures Contest(Apply(s, Lock(t)), plan, n, orders)
  {
    LockKeeps(s, t);
    LockEnters(s, t, plan, orders);
    hide Inv, Entrants, Apply, Conserves, Exhausted;
    if Exhausted(s, plan) { LocksKept(s, Apply(s, Lock(t)), plan); }
  }

  lemma BeginEnters(s: Pool, t: nat, plan: Id, orders: nat -> Id)
    requires Entrants(s, plan, orders) && Injective(orders)
    ensures var s' := Apply(s, Begin(t, orders(t), plan));
            && Entrants(s', plan, orders) && s'.won == s.won && s'.lost == s.lost && s'.stock == s.stock
            && forall u | u in s.open && s.open[u].Holding? :: u in s'.open && s'.open[u] == s.open[u]
  {
    hide Dangers;
    if t !in s.open && t !in s.won && t !in s.lost {
      assert OwnedItem(s.stock, orders(t)).None?;
      assert Step(s, Begin(t, orders(t), plan)) == s.(open := s.open[t := Seeking(orders(t), plan)]);
      hide Step;
    }
  }

  lemma BeginCounts(s: Pool, t: nat, plan: Id, n: int, orders: nat -> Id)
    requires Contest(s, plan, n, orders) && Injective(orders)
    ensures Contest(Apply(s, Begin(t, orders(t), plan)), plan, n, orders)
  {
    hide Inv, Entrants, Apply, Conserves, Exhausted;
    OpenKeeps(s, Begin(t, orders(t), plan));
    BeginEnters(s, t, plan, orders);
    if Exhausted(s, plan) { LocksKept(s, Apply(s, Begin(t, orders(t), plan)), plan); }
  }

  lemma ContestStep(s: Pool, e: Event, plan: Id, n: int, orders: nat -> Id)
    requires Contest(s, plan, n, orders) && Injective(orders) && Contends(e, plan, orders)
    ensures Contest(Apply(s, e), plan, n, orders)
  {
    match e {
      case Begin(t, o, p) => BeginCounts(s, t, plan, n, orders);
      case Lock(t) =>
        if t in s.open && s.open[t].Seeking? { LockCounts(s, t, plan, n, orders); }
      case Commit(t) =>
        if t in s.open && s.open[t].Holding? { WinnerCounts(s, t, plan, n, orders); }
    }
  }

  lemma {:induction false} ContestRun(s: Pool, events: seq<Event>, plan: Id, n: int, orders: nat -> Id)
    requires Contest(s, plan, n, orders) && Injective(orders) && forall e | e in events :: Contends(e, plan, orders)
    ensures Contest(Run(s, events), plan, n, orders)
    decreases events
  {
    hide Contest, Apply;
    if events != [] {
      ContestStep(s, events[0], plan, n, orders);
      ContestRun(Apply(s, events[0]), events[1..], plan, n, orders);
    }
  }

  lemma ContestStarts(stock: seq<StockItem>, plan: Id, orders: nat -> Id)
    requires OneOwner(stock) && forall i: Id, t: nat | i < |stock| :: stock[i].order != Some(orders(t))
    ensures Contest(Start(stock), plan, Free(stock, plan), orders)
  {
  }

  /** k distinct orders claim a plan with n AVAILABLE items, in any interleaving and without aborts:
      once all have ended, exactly min(k, n) have their item and the rest were told it is sold out. */
  lemma AsManyWinnersAsItems(stock: seq<StockItem>, events: seq<Event>, plan: Id, orders: nat -> Id)
    requires OneOwner(stock) && Injective(orders) && forall e | e in events :: Contends(e, plan, orders)
    requires forall i: Id, t: nat | i < |stock| :: stock[i].order != Some(orders(t))
    requires Run(Start(stock), events).open == map[]
    ensures var end := Run(Start(stock), events);
            var k, n := |end.won + end.lost|, Free(stock, plan);
            && |end.won| == (if k < n then k else n)
            && Free(end.stock, plan) == n - |end.won|
  {
    ContestStarts(stock, plan, orders);
    hide Run, Apply, Start;
    ContestRun(Start(stock), events, plan, Free(stock, plan), orders);
    ContestEnds(Run(Start(stock), events), plan, Free(stock, plan), orders);
  }

  lemma ContestEnds(end: Pool, plan: Id, n: int, orders: nat -> Id)
    requires Contest(end, plan, n, orders) && end.open == map[]
    ensures |end.won| == (if |end.won + end.lost| < n then |end.won + end.lost| else n) && Free(end.stock, plan) == n - |end.won|
  {
    assert end.won !! end.lost && Free(end.stock, plan) + |end.won| == n;
    SumBounds(end.stock, FreeShare(plan), 1);
    if end.lost != {} {
      assert Exhausted(end, plan);
      forall item | item in end.stock ensures FreeShare(plan)(item) == 0 {
        var i: nat :| i < |end.stock| && end.stock[i] == item;
      }
      SumZero(end.stock, FreeShare(plan));
    }
    UnionSize(end.won, end.lost);
    hide Contest;
  }

  lemma UnionSize(a: set<nat>, b: set<nat>)
    requires a !! b
    ensures |a + b| == |a| + |b| && (b != {} ==> |b| > 0)
  {
  }

  // ---------------------------------------------------------------- alone it is the transaction

  /** Begin, lock and commit with nobody else about: the stock ends as the transaction of the pipeline
      leaves it, and the claim is lost exactly when that one finds the pool empty. */
  lemma AloneItIsTheTransaction(s: Pool, db: Db, t: nat, o: Id)
    requires Inv(s) && s.open == map[] && t !in s.won && t !in s.lost && o !in s.closed && s.stock == db.stock
    requires o < |db.orders| && db.orders[o].status.Delivering?
    ensures var tx := DeliverFromPoolTx(db, o);
            var end := Apply(Apply(Apply(s, Begin(t, o, db.orders[o].plan)), Lock(t)), Commit(t));
            && (tx.Ok? <==> t in end.won) && (tx.Err? <==> t in end.lost)
            && end.stock == if tx.Ok? then tx.value.stock else db.stock
  {
    var plan, owned := db.orders[o].plan, OwnedItem(db.stock, o);
    var begun := Apply(s, Begin(t, o, plan));
    assert Locked(begun.open) == {};
    var locked := Apply(begun, Lock(t));
    if owned.Some? {
      assert locked.open[t] == Holding(o, owned.value, false);
      assert !OwnsAnother(s.stock, o, owned.value);
    } else {
      var item := FirstAvailable(db.stock, plan, {});
      if item.Some? {
        assert locked.open[t] == Holding(o, item.value, true);
        assert !OwnsAnother(s.stock, o, item.value);
      }
    }
  }
}
