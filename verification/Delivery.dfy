/** packages/core/src/delivery.ts, fulfillment.ts and manual-delivery.ts: the four strategies, and
    everything that happens around them once an order is PAID.

    Encryption is an invertible pair and is left out: a stored payload is its plaintext. */
module Delivery {
  import opened Schema
  import opened LedgerBook
  import opened Money
  import opened Orders
  import opened Subscriptions

  // ---------------------------------------------------------------- the stock pool

  /** The item an earlier reservation or a crashed run left with the order. */
  function OwnedItem(stock: seq<StockItem>, o: Id): (r: Option<Id>)
    ensures r.Some? ==> r.value < |stock| && stock[r.value].order == Some(o) && !stock[r.value].status.Available?
    ensures r.None? ==> forall item | item in stock :: item.order == Some(o) ==> item.status.Available?
  {
    if stock == [] then None
    else if stock[|stock| - 1].order == Some(o) && !stock[|stock| - 1].status.Available? then Some(|stock| - 1)
    else OwnedItem(stock[..|stock| - 1], o)
  }

  /** The oldest AVAILABLE item of a plan that no other transaction holds locked. */
  function FirstAvailable(stock: seq<StockItem>, plan: Id, locked: set<Id>): (r: Option<Id>)
    ensures r.Some? ==> r.value < |stock| && stock[r.value].status.Available? && stock[r.value].plan == plan
                        && r.value !in locked
    ensures forall i: nat | i < |stock| && (r.Some? ==> i < r.value) && stock[i].status.Available? && stock[i].plan == plan ::
              i in locked
  {
    if stock == [] then None
    else
      var n := |stock| - 1;
      var earlier := FirstAvailable(stock[..n], plan, locked);
      if earlier.Some? then earlier
      else if stock[n].status.Available? && stock[n].plan == plan && n !in locked then Some(n)
      else None
  }

  function Sell(stock: seq<StockItem>, i: Id, o: Id): seq<StockItem>
    requires i < |stock|
  {
    stock[i := stock[i].(status := Sold, order := Some(o))]
  }

  /** The claim, the SOLD write and the DELIVERED write are one transaction. */
  function DeliverFromPoolTx(db: Db, o: Id): Result<Db> {
    if o >= |db.orders| then Err(NotFound)
    else
      var owned := OwnedItem(db.stock, o);
      var item := if owned.Some? then owned else FirstAvailable(db.stock, db.orders[o].plan, {});
      if item.None? then Err(StockUnavailable)
      else MarkDeliveredTx(db.(stock := Sell(db.stock, item.value, o)), o, db.stock[item.value].payload)
  }

  // ---------------------------------------------------------------- the external supplier

  const EXTERNAL_ATTEMPTS := 3
  const BREAKER_FAILURE_THRESHOLD := 5
  const BREAKER_COOLDOWN_MS := 60_000

  datatype BreakerState = BreakerState(consecutiveFailures: nat, openedAt: Option<int>)

  /** What one call of the supplier came back with; `None` is an error, a timeout or no payload. */
  type Reply = Option<string>

  /** One attempt: the reply, and the clock as it is read if the attempt has failed. */
  datatype Attempt = Attempt(reply: Reply, at: int)

  predicate Succeeds(r: Reply) {
    r.Some? && r.value != ""
  }

  predicate BreakerOpen(b: BreakerState, now: int) {
    b.openedAt.Some? && now - b.openedAt.value < BREAKER_COOLDOWN_MS
  }

  /** Half-open after the cooldown: one more failure opens it again. */
  function Probed(b: BreakerState, now: int): BreakerState {
    if b.openedAt.Some? && !BreakerOpen(b, now) then BreakerState(BREAKER_FAILURE_THRESHOLD - 1, None) else b
  }

  function AfterFailure(b: BreakerState, now: int): BreakerState {
    var n := b.consecutiveFailures + 1;
    BreakerState(n, if n >= BREAKER_FAILURE_THRESHOLD then Some(now) else b.openedAt)
  }

  /** The breaker after `attempts`, in order, up to the first one that succeeds and is written; a write that
      is `refused` counts as a failure of the supplier. */
  function AfterAttempts(b: BreakerState, attempts: seq<Attempt>, refused: bool): BreakerState
    decreases attempts
  {
    if attempts == [] then b
    else if !Succeeds(attempts[0].reply) then AfterAttempts(AfterFailure(b, attempts[0].at), attempts[1..], refused)
    else if refused then AfterAttempts(AfterFailure(BreakerState(0, None), attempts[0].at), attempts[1..], refused)
    else BreakerState(0, None)
  }

  predicate IsFirst(attempts: seq<Attempt>, i: nat) {
    i < |attempts| && Succeeds(attempts[i].reply) && forall j: nat | j < i :: !Succeeds(attempts[j].reply)
  }

  function FirstSuccess(attempts: seq<Attempt>): (r: Reply)
    ensures r.Some? ==> Succeeds(r) && exists i: nat :: IsFirst(attempts, i) && attempts[i].reply == r
    ensures r.None? ==> forall x | x in attempts :: !Succeeds(x.reply)
  {
    if attempts == [] then None
    else if Succeeds(attempts[0].reply) then assert IsFirst(attempts, 0); attempts[0].reply
    else
      var r := FirstSuccess(attempts[1..]);
      assert forall x | x in attempts :: x == attempts[0] || x in attempts[1..];
      assert forall i: nat | IsFirst(attempts[1..], i) :: IsFirst(attempts, i + 1) && attempts[1..][i] == attempts[i + 1];
      r
  }

  /** Once open, the breaker lets no attempt through for the cooldown; the first probe after it
      re-opens on a single failure, for another cooldown from then on, and is forgotten on a success. */
  lemma HalfOpenProbe(b: BreakerState, now: int, probe: Attempt, later: int)
    requires b.openedAt.Some? && !BreakerOpen(b, now)
    ensures var after := AfterAttempts(Probed(b, now), [probe], false);
            BreakerOpen(after, later) <==> !Succeeds(probe.reply) && later < probe.at + BREAKER_COOLDOWN_MS
  {
    assert [probe][1..] == [];
  }

  class Breaker {
    var consecutiveFailures: nat
    var openedAt: Option<int>

    function State(): BreakerState
      reads this
    {
      BreakerState(consecutiveFailures, openedAt)
    }

    constructor ()
      ensures State() == BreakerState(0, None)
    {
      consecutiveFailures, openedAt := 0, None;
    }

    method IsOpen(now: int) returns (open: bool)
      modifies this
      ensures open == BreakerOpen(old(State()), now) && State() == Probed(old(State()), now)
    {
      if openedAt == None {
        return false;
      }
      if now - openedAt.value >= BREAKER_COOLDOWN_MS {
        openedAt := None;
        consecutiveFailures := BREAKER_FAILURE_THRESHOLD - 1;
        return false;
      }
      return true;
    }
  }

  // ---------------------------------------------------------------- the pipeline around them

  /** What the outside world contributes to one delivery: the code the generator would mint and
      the supplier's answers, if a supplier is configured. */
  datatype World = World(minted: string, supplier: Option<seq<Attempt>>)

  /** The tables after a strategy, which may have failed and refunded the order before it threw. */
  datatype Dispatched = Dispatched(db: Db, error: Option<Error>)

  function Tried(db: Db, tx: Result<Db>): Dispatched {
    if tx.Ok? then Dispatched(tx.value, None) else Dispatched(db, Some(tx.error))
  }

  /** No supplier, or none that answered: the order is failed and refunded, or that throws itself. */
  function ExhaustedTx(db: Db, o: Id): Dispatched {
    var tx := FailAndRefundTx(db, o);
    if tx.Ok? then Dispatched(tx.value, Some(DeliveryFailed)) else Dispatched(db, Some(tx.error))
  }

  function ExternalTx(db: Db, o: Id, b: BreakerState, supplier: Option<seq<Attempt>>, now: int): Dispatched {
    if supplier.None? then ExhaustedTx(db, o)
    else if BreakerOpen(b, now) then Dispatched(db, Some(DeliveryFailed))
    else
      var payload := FirstSuccess(supplier.value);
      if payload.Some? && MarkDeliveredTx(db, o, payload.value).Ok?
      then Dispatched(MarkDeliveredTx(db, o, payload.value).value, None)
      else ExhaustedTx(db, o)
  }

  /** An uninterrupted strategy of the order's delivery type. */
  function StrategyTx(db: Db, o: Id, b: BreakerState, world: World, now: int): Dispatched {
    if o >= |db.orders| || db.orders[o].plan >= |db.plans| then Dispatched(db, Some(NotFound))
    else
      match db.plans[db.orders[o].plan].delivery
      case StockPool => Tried(db, DeliverFromPoolTx(db, o))
      case UniqueCode(template) =>
        if template.None? then Tried(db, DeliverFromPoolTx(db, o)) else Tried(db, MarkDeliveredTx(db, o, world.minted))
      case ExternalApi => ExternalTx(db, o, b, world.supplier, now)
      case ManualFallback => Dispatched(db, Some(ManualFallbackRequired))
  }

  datatype Outcome = Served | Parked | Threw(error: Error)
  datatype Fulfilled = Fulfilled(db: Db, outcome: Outcome)

  function Subscribed(db: Db, o: Id, now: int): Db {
    Committed(db, CreateSubscriptionTx(db, o, now))
  }

  /** Post-delivery failures are settled by failing and refunding an order still in flight. */
  function Settled(db: Db, o: Id): Db {
    if o < |db.orders| && (db.orders[o].status.Paid? || db.orders[o].status.Delivering?)
    then Committed(db, FailAndRefundTx(db, o))
    else db
  }

  /** An uninterrupted `fulfillOrder`. */
  function FulfillTx(db: Db, o: Id, b: BreakerState, world: World, now: int): Fulfilled {
    if o >= |db.orders| || db.orders[o].plan >= |db.plans| then Fulfilled(db, Threw(NotFound))
    else if db.orders[o].status.Delivered? then
      if db.orders[o].payload.None? then Fulfilled(db, Threw(DeliveryFailed))
      else Fulfilled(Subscribed(db, o, now), Served)
    else if !db.orders[o].status.Paid? && !db.orders[o].status.Delivering? then Fulfilled(db, Threw(OrderState))
    else
      var marked := WithStatus(db, o, Delivering);
      var end := StrategyTx(marked, o, b, world, now);
      match end.error
      case None => Fulfilled(Subscribed(end.db, o, now), Served)
      case Some(ManualFallbackRequired) => Fulfilled(end.db, Parked)
      case Some(e) => Fulfilled(if e.OrderState? || e.NotFound? then end.db else Settled(end.db, o), Threw(e))
  }

  /** The transaction of an operator's delivery: both status hops, the payload and the period. */
  function ManualCommitTx(db: Db, o: Id, text: string, now: int): Result<Db> {
    var marked :- MarkDeliveringTx(db, o);
    var delivered :- MarkDeliveredTx(marked, o, Trim(text));
    CreateSubscriptionTx(delivered, o, now)
  }

  function DeliverManualTx(db: Db, o: Id, text: string, now: int): Result<Db> {
    if Trim(text) == "" then Err(OutOfRange)
    else if o >= |db.orders| then Err(NotFound)
    else if db.orders[o].status.Delivered? then CreateSubscriptionTx(db, o, now)
    else ManualCommitTx(db, o, text, now)
  }

  // ---------------------------------------------------------------- the same, in place

  method DeliverFromPool(db: Database, o: Id) returns (r: Result<()>)
    modifies db`stock, db`orders
    ensures Commits(old(db.View()), db.View(), r, DeliverFromPoolTx(old(db.View()), o))
  {
    if o >= |db.orders| {
      return Err(NotFound);
    }
    var begin := db.stock;
    var item := OwnedItem(db.stock, o);
    if item.None? {
      item := FirstAvailable(db.stock, db.orders[o].plan, {});
      if item.None? {
        return Err(StockUnavailable);
      }
      db.stock := Sell(db.stock, item.value, o);
    } else if !db.stock[item.value].status.Sold? {
      db.stock := Sell(db.stock, item.value, o);
    }
    r := MarkDelivered(db, o, db.stock[item.value].payload);
    if r.Err? {
      db.stock := begin;
    }
  }

  /** What a method that throws leaves. */
  function Thrown(db: Db, r: Result<()>): Dispatched {
    Dispatched(db, if r.Ok? then None else Some(r.error))
  }

  method SupplierExhausted(db: Database, o: Id) returns (r: Result<()>)
    modifies db
    ensures Thrown(db.View(), r) == ExhaustedTx(old(db.View()), o)
  {
    var refunded := FailAndRefund(db, o);
    if refunded.Err? {
      return refunded;
    }
    return Err(DeliveryFailed);
  }

  predicate Refused(orders: seq<Order>, o: Id) {
    o >= |orders| || !MayMove(orders[o].status, Delivered)
  }

  method DeliverFromExternalApi(db: Database, breaker: Breaker, o: Id, supplier: Option<seq<Attempt>>, now: int)
    returns (r: Result<()>)
    requires supplier.Some? ==> |supplier.value| == EXTERNAL_ATTEMPTS
    modifies db, breaker
    ensures Thrown(db.View(), r) == ExternalTx(old(db.View()), o, old(breaker.State()), supplier, now)
    ensures var state := old(breaker.State());
            breaker.State() == if supplier.None? || BreakerOpen(state, now) then state
                               else AfterAttempts(Probed(state, now), supplier.value, Refused(old(db.orders), o))
  {
    if supplier.None? {
      r := SupplierExhausted(db, o);
      return;
    }
    var open := breaker.IsOpen(now);
    if open {
      return Err(DeliveryFailed);
    }
    ghost var refused := Refused(db.orders, o);
    var attempt := 0;
    while attempt < EXTERNAL_ATTEMPTS
      invariant 0 <= attempt <= EXTERNAL_ATTEMPTS
      invariant db.View() == old(db.View())
      invariant !refused ==> FirstSuccess(supplier.value) == FirstSuccess(supplier.value[attempt..])
      invariant AfterAttempts(Probed(old(breaker.State()), now), supplier.value, refused)
             == AfterAttempts(breaker.State(), supplier.value[attempt..], refused)
    {
      var reply := supplier.value[attempt].reply;
      if reply.Some? && reply.value != "" {
        breaker.consecutiveFailures := 0;
        breaker.openedAt := None;
        r := MarkDelivered(db, o, reply.value);
        if r.Ok? {
          return;
        }
      }
      breaker.consecutiveFailures := breaker.consecutiveFailures + 1;
      if breaker.consecutiveFailures >= BREAKER_FAILURE_THRESHOLD {
        breaker.openedAt := Some(supplier.value[attempt].at);
      }
      attempt := attempt + 1;
    }
    r := SupplierExhausted(db, o);
  }

  method Strategy(db: Database, breaker: Breaker, o: Id, world: World, now: int) returns (r: Result<()>)
    requires world.supplier.Some? ==> |world.supplier.value| == EXTERNAL_ATTEMPTS
    modifies db, breaker
    ensures Thrown(db.View(), r) == StrategyTx(old(db.View()), o, old(breaker.State()), world, now)
  {
    if o >= |db.orders| || db.orders[o].plan >= |db.plans| {
      return Err(NotFound);
    }
    match db.plans[db.orders[o].plan].delivery {
      case StockPool =>
        r := DeliverFromPool(db, o);
      case UniqueCode(template) =>
        if template.None? {
          r := DeliverFromPool(db, o);
        } else {
          r := MarkDelivered(db, o, world.minted);
        }
      case ExternalApi =>
        r := DeliverFromExternalApi(db, breaker, o, world.supplier, now);
      case ManualFallback =>
        r := Err(ManualFallbackRequired);
    }
  }

  /** Only an order still in flight is settled, and an error of that never hides the delivery's own. */
  method SettleFailedDelivery(db: Database, o: Id)
    modifies db
    ensures db.View() == Settled(old(db.View()), o)
  {
    if o < |db.orders| && (db.orders[o].status.Paid? || db.orders[o].status.Delivering?) {
      var _ := FailAndRefund(db, o);
    }
  }

  method FulfillOrder(db: Database, breaker: Breaker, o: Id, world: World, now: int) returns (outcome: Outcome)
    requires world.supplier.Some? ==> |world.supplier.value| == EXTERNAL_ATTEMPTS
    modifies db, breaker
    ensures Fulfilled(db.View(), outcome) == FulfillTx(old(db.View()), o, old(breaker.State()), world, now)
  {
    if o >= |db.orders| || db.orders[o].plan >= |db.plans| {
      return Threw(NotFound);
    }
    var order := db.orders[o];
    if order.status.Delivered? {
      if order.payload.None? {
        return Threw(DeliveryFailed);
      }
      var _ := CreateSubscriptionForOrder(db, o, now);
      return Served;
    }
    if !order.status.Paid? && !order.status.Delivering? {
      return Threw(OrderState);
    }
    var _ := MarkDelivering(db, o);
    ghost var marked := db.View();
    assert marked == WithStatus(old(db.View()), o, Delivering);
    var delivered := Strategy(db, breaker, o, world, now);
    if delivered.Ok? {
      var _ := CreateSubscriptionForOrder(db, o, now);
      return Served;
    }
    if delivered.error.ManualFallbackRequired? {
      return Parked;
    }
    if !delivered.error.OrderState? && !delivered.error.NotFound? {
      SettleFailedDelivery(db, o);
    }
    return Threw(delivered.error);
  }

  method DeliverManualOrder(db: Database, o: Id, text: string, now: int) returns (r: Result<()>)
    modifies db
    ensures Commits(old(db.View()), db.View(), r, DeliverManualTx(old(db.View()), o, text, now))
  {
    var begin := db.View();
    var payload := Trim(text);
    if payload == "" {
      return Err(OutOfRange);
    }
    if o >= |db.orders| {
      return Err(NotFound);
    }
    if db.orders[o].status.Delivered? {
      r := CreateSubscriptionForOrder(db, o, now);
      return;
    }
    r := MarkDelivering(db, o);
    if r.Err? {
      return;
    }
    r := MarkDelivered(db, o, payload);
    if r.Err? {
      db.Rollback(begin);
      return;
    }
    r := CreateSubscriptionForOrder(db, o, now);
    if r.Err? {
      db.Rollback(begin);
    }
  }

  // ---------------------------------------------------------------- what the buyer is handed

  /** The pool hands over the payload of one item: the one the order already had, and otherwise the
      oldest AVAILABLE one of its plan; that item is SOLD to the order and no other item has changed. */
  lemma PoolHandsOver(db: Db, o: Id)
    requires DeliverFromPoolTx(db, o).Ok?
    ensures var after := DeliverFromPoolTx(db, o).value;
            && o < |db.orders| && after.orders[o].status.Delivered?
            && exists i: Id :: i < |db.stock| && after.stock == db.stock[i := after.stock[i]]
                 && after.stock[i].status.Sold? && after.stock[i].order == Some(o)
                 && after.orders[o].payload == Some(db.stock[i].payload)
                 && ((db.stock[i].order == Some(o) && !db.stock[i].status.Available?)
                     || (db.stock[i].status.Available? && db.stock[i].plan == db.orders[o].plan
                         && forall j: Id | j < i :: !(db.stock[j].status.Available? && db.stock[j].plan == db.orders[o].plan)))
  {
    var after := DeliverFromPoolTx(db, o).value;
    var owned := OwnedItem(db.stock, o);
    var i := if owned.Some? then owned.value else FirstAvailable(db.stock, db.orders[o].plan, {}).value;
    assert after.stock == Sell(db.stock, i, o);
  }

  /** The tables' part in an uninterrupted `fulfillOrder`: where the goods are to come from. */
  ghost predicate CanServe(db: Db, o: Id, b: BreakerState, world: World, now: int)
    requires o < |db.orders| && db.orders[o].plan < |db.plans|
  {
    match db.plans[db.orders[o].plan].delivery
    case StockPool => PoolHas(db, o)
    case UniqueCode(template) => template.Some? || PoolHas(db, o)
    case ExternalApi => !BreakerOpen(b, now) && world.supplier.Some? && exists i: nat :: IsFirst(world.supplier.value, i)
    case ManualFallback => false
  }

  /** There is an item that is the order's already, or one of its plan for sale. */
  ghost predicate PoolHas(db: Db, o: Id)
    requires o < |db.orders|
  {
    exists i: Id :: i < |db.stock|
                    && ((db.stock[i].order == Some(o) && !db.stock[i].status.Available?)
                        || (db.stock[i].status.Available? && db.stock[i].plan == db.orders[o].plan))
  }

  /** What the buyer is handed: an item of the pool, which is then SOLD to the order, the code that was minted,
      or the first answer of the supplier that is one. */
  ghost predicate HandedOver(db: Db, after: Db, o: Id, world: World, payload: string)
    requires o < |db.orders| && db.orders[o].plan < |db.plans|
  {
    match db.plans[db.orders[o].plan].delivery
    case StockPool => FromStock(db.stock, after.stock, o, payload)
    case UniqueCode(None) => FromStock(db.stock, after.stock, o, payload)
    case UniqueCode(Some(_)) => payload == world.minted && after.stock == db.stock
    case ExternalApi =>
      && after.stock == db.stock && world.supplier.Some?
      && exists i: nat :: IsFirst(world.supplier.value, i) && world.supplier.value[i].reply == Some(payload)
    case ManualFallback => false
  }

  ghost predicate FromStock(stock: seq<StockItem>, stock': seq<StockItem>, o: Id, payload: string) {
    exists i: Id :: i < |stock| && stock[i].payload == payload && stock' == stock[i := stock[i].(status := Sold, order := Some(o))]
  }

  lemma PoolServesIff(db: Db, o: Id)
    requires o < |db.orders| && db.orders[o].status.Delivering?
    ensures var tx := DeliverFromPoolTx(db, o);
            && (tx.Ok? <==> PoolHas(db, o))
            && (tx.Err? ==> tx.error.StockUnavailable?)
            && (tx.Ok? ==> tx.value.orders[o].payload.Some? && FromStock(db.stock, tx.value.stock, o, tx.value.orders[o].payload.value)
                           && tx.value == db.(orders := tx.value.orders, stock := tx.value.stock)
                           && BecomesAlone(db.orders, tx.value.orders, o,
                                           db.orders[o].(status := Delivered, payload := tx.value.orders[o].payload)))
  {
    var owned, free := OwnedItem(db.stock, o), FirstAvailable(db.stock, db.orders[o].plan, {});
    var i := if owned.Some? then owned else free;
    if i.Some? {
      assert i.value < |db.stock|;
    } else {
      assert forall j: Id | j < |db.stock| :: db.stock[j] in db.stock;
    }
  }

  lemma SupplierServesIff(db: Db, o: Id, b: BreakerState, supplier: Option<seq<Attempt>>, now: int)
    requires o < |db.orders| && db.orders[o].status.Delivering?
    ensures var end := ExternalTx(db, o, b, supplier, now);
            && (end.error.None? <==> !BreakerOpen(b, now) && supplier.Some? && exists i: nat :: IsFirst(supplier.value, i))
            && (end.error.Some? ==> !end.error.value.ManualFallbackRequired?)
            && (end.error.None? ==>
                  && end.db == db.(orders := end.db.orders) && |end.db.orders| == |db.orders| && end.db.orders[o].payload.Some?
                  && (exists i: nat :: IsFirst(supplier.value, i) && supplier.value[i].reply == end.db.orders[o].payload)
                  && BecomesAlone(db.orders, end.db.orders, o,
                                  db.orders[o].(status := Delivered, payload := end.db.orders[o].payload)))
  {
    FailsWith(db, o);
    if supplier.Some? {
      if i: nat :| IsFirst(supplier.value, i) { assert supplier.value[i] in supplier.value; }
    }
    hide FailAndRefundTx, BreakerOpen;
  }

  /** `deliver()` on its own, when the supplier has nothing: with the breaker open it leaves the order as it is,
      for a later try. Otherwise it fails the order, releases what was reserved for it and gives its buyer the
      price back before it throws. */
  lemma SupplierGivesUp(db: Db, o: Id, b: BreakerState, supplier: Option<seq<Attempt>>, now: int)
    requires o < |db.orders| && db.orders[o].status.Delivering?
    requires BalanceOf(db.ledger.rows, db.orders[o].user) >= 0 && FailureRefundOf(o) !in db.ledger.records
    requires BreakerOpen(b, now) || supplier.None? || forall i: nat | i < |supplier.value| :: !Succeeds(supplier.value[i].reply)
    ensures var end, order := ExternalTx(db, o, b, supplier, now), db.orders[o];
            && end.error == Some(DeliveryFailed)
            && if supplier.Some? && b.openedAt.Some? && now - b.openedAt.value < 60_000 then end.db == db
               else && end.db == db.(orders := end.db.orders, stock := end.db.stock, ledger := end.db.ledger)
                    && BecomesAlone(db.orders, end.db.orders, o, order.(status := OrderStatus.Failed))
                    && Released(db.stock, end.db.stock, o)
                    && BooksOnly(db.ledger.rows, end.db.ledger.rows, Row(order.user, LedgerType.Refund, order.amountCents, Some(o), None))
  {
    hide FailAndRefundTx, BooksOnly, Released, BalanceOf;
    FailsIff(db, o);
    if supplier.Some? && !BreakerOpen(b, now) { SupplierServesIff(db, o, b, supplier, now); }
  }

  lemma StrategyServesIff(db: Db, o: Id, b: BreakerState, world: World, now: int)
    requires o < |db.orders| && db.orders[o].plan < |db.plans| && db.orders[o].status.Delivering?
    ensures var end := StrategyTx(db, o, b, world, now);
            && (end.error.None? <==> CanServe(db, o, b, world, now))
            && (end.error == Some(ManualFallbackRequired) <==> db.plans[db.orders[o].plan].delivery.ManualFallback?)
            && (end.error.None? ==>
                  && end.db == db.(orders := end.db.orders, stock := end.db.stock)
                  && |end.db.orders| == |db.orders| && end.db.orders[o].payload.Some?
                  && HandedOver(db, end.db, o, world, end.db.orders[o].payload.value)
                  && BecomesAlone(db.orders, end.db.orders, o,
                                  db.orders[o].(status := Delivered, payload := end.db.orders[o].payload)))
  {
    PoolServesIff(db, o);
    SupplierServesIff(db, o, b, world.supplier, now);
    hide DeliverFromPoolTx, ExternalTx, PoolHas, FromStock, BreakerOpen, IsFirst;
  }

  lemma FailsWith(db: Db, o: Id)
    ensures FailAndRefundTx(db, o).Err? ==> !FailAndRefundTx(db, o).error.ManualFallbackRequired?
  {
  }

  /** An uninterrupted `fulfillOrder` of an order on its way serves it exactly if there is something to hand
      over, and then hands that over and changes nothing else but the order's period; it parks exactly the
      orders of plans an operator delivers. */
  lemma ServesIff(db: Db, o: Id, b: BreakerState, world: World, now: int)
    requires o < |db.orders| && db.orders[o].plan < |db.plans|
    requires db.orders[o].status.Paid? || db.orders[o].status.Delivering?
    ensures var f := FulfillTx(db, o, b, world, now);
            && (f.outcome.Served? <==> CanServe(db, o, b, world, now))
            && (f.outcome.Parked? <==> db.plans[db.orders[o].plan].delivery.ManualFallback?)
            && (f.outcome.Served? ==>
                  && f.db == db.(orders := f.db.orders, stock := f.db.stock, subs := f.db.subs)
                  && |f.db.orders| == |db.orders| && f.db.orders[o].payload.Some?
                  && HandedOver(db, f.db, o, world, f.db.orders[o].payload.value)
                  && BecomesAlone(db.orders, f.db.orders, o, db.orders[o].(status := Delivered, payload := f.db.orders[o].payload)))
  {
    var marked := WithStatus(db, o, Delivering);
    StrategyServesIff(marked, o, b, world, now);
    var end := StrategyTx(marked, o, b, world, now);
    if end.error.None? { PeriodCreated(end.db, o, now); }
    assert marked.stock == db.stock && CanServe(marked, o, b, world, now) == CanServe(db, o, b, world, now);
    hide StrategyTx, CreateSubscriptionTx, Settled, CanServe, PoolHas, FromStock, IsFirst, IsPeriodOf;
  }

  /** Any other order it leaves as it is: a DELIVERED one counts as served if its payload is there, and gets
      at most its missing period; all others are refused. */
  lemma ServesNoOther(db: Db, o: Id, b: BreakerState, world: World, now: int)
    requires o < |db.orders| && !db.orders[o].status.Paid? && !db.orders[o].status.Delivering?
    ensures var f := FulfillTx(db, o, b, world, now);
            && f.db == db.(subs := f.db.subs) && !f.outcome.Parked?
            && (f.outcome.Served? <==> && db.orders[o].plan < |db.plans| && db.orders[o].status.Delivered?
                                       && db.orders[o].payload.Some?)
            && (f.outcome.Threw? ==> f.db == db)
  {
    if db.orders[o].plan < |db.plans| { PeriodCreated(db, o, now); }
    hide StrategyTx, CreateSubscriptionTx, Settled, IsPeriodOf;
  }

  // ---------------------------------------------------------------- and the period that comes with it

  /** The order has exactly one period, its buyer's and of its plan. */
  ghost predicate HasOnePeriod(db: Db, o: Id) {
    && o < |db.orders|
    && exists i: Id :: IsOnlyPeriod(db, o, i)
  }

  predicate IsOnlyPeriod(db: Db, o: Id, i: Id)
    requires o < |db.orders|
  {
    && i < |db.subs| && db.subs[i].order == o && db.subs[i].user == db.orders[o].user && db.subs[i].plan == db.orders[o].plan
    && forall j: Id | j < |db.subs| && db.subs[j].order == o :: j == i
  }

  /** No order has two periods, and those there are fit their orders. */
  ghost predicate PeriodsFit(db: Db, o: Id)
    requires o < |db.orders|
  {
    && (forall i: Id, j: Id | i < |db.subs| && j < |db.subs| && db.subs[i].order == o && db.subs[j].order == o :: i == j)
    && (forall s | s in db.subs && s.order == o :: s.user == db.orders[o].user && s.plan == db.orders[o].plan)
  }

  /** What serving order `o` did to the periods: it has its own, made now if there was none. */
  ghost predicate PeriodGiven(db: Db, after: Db, o: Id, now: int) {
    && o < |after.orders| && after.orders[o].plan < |after.plans| == |db.plans|
    && var order, days := after.orders[o], after.plans[after.orders[o].plan].durationDays;
       if days.None? || (exists s :: s in db.subs && s.order == o) then after.subs == db.subs
       else && |after.subs| == |db.subs| + 1 && after.subs == db.subs + [after.subs[|db.subs|]]
            && IsPeriodOf(db.subs, order, days.value, o, if order.paidAt.Some? then order.paidAt.value else now, after.subs[|db.subs|])
  }

  lemma OnePeriodThen(db: Db, after: Db, o: Id, now: int)
    requires PeriodGiven(db, after, o, now) && after.plans[after.orders[o].plan].durationDays.Some?
    requires o < |db.orders| && PeriodsFit(db, o)
    requires db.orders[o].user == after.orders[o].user && db.orders[o].plan == after.orders[o].plan
    ensures HasOnePeriod(after, o)
  {
    if s :| s in db.subs && s.order == o {
      var i: Id :| i < |db.subs| && db.subs[i] == s;
      assert IsOnlyPeriod(after, o, i);
    } else {
      assert forall j: Id | j < |db.subs| :: db.subs[j] in db.subs;
      assert IsOnlyPeriod(after, o, |db.subs|);
    }
  }

  /** Whoever is served has the period that was bought: a served order of a subscription plan has exactly one,
      made now if there was none, be it served now or found DELIVERED, as after a crash. */
  lemma ServedHasPeriod(db: Db, o: Id, b: BreakerState, world: World, now: int)
    requires o < |db.orders| && FulfillTx(db, o, b, world, now).outcome.Served?
    ensures var f := FulfillTx(db, o, b, world, now);
            && PeriodGiven(db, f.db, o, now)
            && (PeriodsFit(db, o) && db.plans[db.orders[o].plan].durationDays.Some? ==> HasOnePeriod(f.db, o))
  {
    var f := FulfillTx(db, o, b, world, now);
    if db.orders[o].status.Delivered? {
      PeriodCreated(db, o, now);
    } else {
      var marked := WithStatus(db, o, Delivering);
      StrategyServesIff(marked, o, b, world, now);
      PeriodCreated(StrategyTx(marked, o, b, world, now).db, o, now);
    }
    hide StrategyTx, CreateSubscriptionTx, Settled, CanServe, HandedOver, IsPeriodOf, PeriodsFit, HasOnePeriod;
    if PeriodsFit(db, o) && db.plans[db.orders[o].plan].durationDays.Some? {
      OnePeriodThen(db, f.db, o, now);
    }
  }

  /** So has whoever an operator delivers to, or whose delivered order an operator opens again. */
  lemma ManualHasPeriod(db: Db, o: Id, text: string, now: int)
    requires o < |db.orders| && db.orders[o].plan < |db.plans| && DeliverManualTx(db, o, text, now).Ok?
    ensures var after := DeliverManualTx(db, o, text, now).value;
            && PeriodGiven(db, after, o, now)
            && after == db.(orders := after.orders, subs := after.subs)
            && (if db.orders[o].status.Delivered? then after.orders == db.orders
                else BecomesAlone(db.orders, after.orders, o, db.orders[o].(status := Delivered, payload := Some(Trim(text)))))
            && (PeriodsFit(db, o) && db.plans[db.orders[o].plan].durationDays.Some? ==> HasOnePeriod(after, o))
  {
    var after := DeliverManualTx(db, o, text, now).value;
    if db.orders[o].status.Delivered? {
      PeriodCreated(db, o, now);
    } else {
      HopsAlone(db, o, "");
      var marked := MarkDeliveringTx(db, o).value;
      HopsAlone(marked, o, Trim(text));
      PeriodCreated(MarkDeliveredTx(marked, o, Trim(text)).value, o, now);
    }
    hide CreateSubscriptionTx, MarkDeliveringTx, MarkDeliveredTx, IsPeriodOf, PeriodsFit, HasOnePeriod, Trim;
    if PeriodsFit(db, o) && db.plans[db.orders[o].plan].durationDays.Some? {
      OnePeriodThen(db, after, o, now);
    }
  }

  /** An operator's delivery goes through exactly with a text, and for an order that is PAID, DELIVERING or
      DELIVERED. */
  lemma ManualIff(db: Db, o: Id, text: string, now: int)
    requires o < |db.orders| && db.orders[o].plan < |db.plans|
    ensures DeliverManualTx(db, o, text, now).Ok? <==> Trim(text) != "" && Held(db.orders[o].status)
  {
    hide Trim;
  }

  /** Two operators racing on one order: the first text that commits is what the buyer gets. */
  lemma ManualDeliversOnce(db: Db, o: Id, text: string, now: int, other: string, later: int)
    requires o < |db.orders| && !db.orders[o].status.Delivered? && DeliverManualTx(db, o, text, now).Ok?
    requires DeliverManualTx(DeliverManualTx(db, o, text, now).value, o, other, later).Ok?
    ensures var first := DeliverManualTx(db, o, text, now).value;
            var second := DeliverManualTx(first, o, other, later).value;
            && first.orders[o].payload == Some(Trim(text)) && Trim(text) != ""
            && second.orders == first.orders
  {
    hide Trim;
  }

  /** A row of failed attempts adds up, and opens the breaker, from the last of them on, if and only if it
      brings the failures on record to the threshold. */
  lemma {:induction false} BreakerOpensIff(b: BreakerState, attempts: seq<Attempt>)
    requires attempts != [] && forall x | x in attempts :: !Succeeds(x.reply)
    ensures var after := AfterAttempts(b, attempts, false);
            && after.consecutiveFailures == b.consecutiveFailures + |attempts|
            && after.openedAt == if after.consecutiveFailures >= BREAKER_FAILURE_THRESHOLD then Some(attempts[|attempts| - 1].at)
                                 else b.openedAt
    decreases attempts
  {
    if |attempts| == 1 {
      assert attempts[1..] == [];
    } else {
      BreakerOpensIff(AfterFailure(b, attempts[0].at), attempts[1..]);
    }
  }

  /** An answer of the supplier that is written closes the breaker, whatever failed before it. */
  lemma {:induction false} WrittenAnswerCloses(b: BreakerState, attempts: seq<Attempt>, i: nat)
    requires IsFirst(attempts, i)
    ensures AfterAttempts(b, attempts, false) == BreakerState(0, None)
    decreases attempts
  {
    if i > 0 {
      assert IsFirst(attempts[1..], i - 1);
      WrittenAnswerCloses(AfterFailure(b, attempts[0].at), attempts[1..], i - 1);
    }
  }

  /** Answers that are refused count as failures from the last of them on, too few to open the breaker. */
  lemma {:induction false} RefusedAnswersCount(b: BreakerState, attempts: seq<Attempt>, i: nat)
    requires i < |attempts| <= EXTERNAL_ATTEMPTS && Succeeds(attempts[i].reply)
    requires forall j: nat | i < j < |attempts| :: !Succeeds(attempts[j].reply)
    ensures AfterAttempts(b, attempts, true) == BreakerState(|attempts| - i, None)
    decreases attempts
  {
    if i > 0 {
      var next := if Succeeds(attempts[0].reply) then BreakerState(0, None) else b;
      RefusedAnswersCount(AfterFailure(next, attempts[0].at), attempts[1..], i - 1);
    } else {
      var first := AfterFailure(BreakerState(0, None), attempts[0].at);
      if |attempts| == 1 {
        assert attempts[1..] == [];
      } else {
        RefusedAlike(first, attempts[1..]);
        BreakerOpensIff(first, attempts[1..]);
      }
    }
  }

  /** Among failures it makes no difference whether an answer would have been written. */
  lemma {:induction false} RefusedAlike(b: BreakerState, attempts: seq<Attempt>)
    requires forall x | x in attempts :: !Succeeds(x.reply)
    ensures AfterAttempts(b, attempts, true) == AfterAttempts(b, attempts, false)
    decreases attempts
  {
    if attempts != [] {
      RefusedAlike(AfterFailure(b, attempts[0].at), attempts[1..]);
    }
  }
}
