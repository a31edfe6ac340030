/** The order pipeline as a state machine: any number of processes run `fulfillOrder`, operators
    deliver by hand, admins refund, sweeps expire, and any of them may crash between two steps.

    A `prisma.$transaction` is one step. `deliver()` calls `markDelivering` and `markDelivered`
    with the client and not with a transaction: there the read and the write are two steps. */
module Pipeline {
  import opened Schema
  import opened Sums
  import opened LedgerBook
  import opened Money
  import opened Orders
  import opened Subscriptions
  import opened Delivery

  /** Where one process stands between two steps. */
  datatype Work =
    | Opened(order: Id)                            // deliver() has read the order as deliverable
    | WritingDelivering(order: Id)                 // markDelivering has read PAID, its update is outstanding
    | Dispatching(order: Id)                       // about to run the strategy
    | WritingDelivered(order: Id, payload: string) // markDelivered has read DELIVERING, its update is outstanding
    | Settling(order: Id)                          // delivery failed, the settlement is outstanding
    | Subscribing(order: Id)                       // delivered, the bookkeeping is outstanding
    | Renewing(seen: Snapshot)                     // renewFromBalance has read the subscription

  /** What is remembered of a run, for the proofs alone. `railed`: the orders that something other than
      `payOrderFromBalance` paid or booked rows of their buyer for. Then the orders on which an update of
      `markDelivering` or `markDelivered` landed too late: `spoiled` if it found them FAILED or REFUNDED,
      `regained` if it found them REFUNDED, `reopened` if it found a payload stored. `lowered`: the promos
      whose limit was edited to below what had been used. */
  datatype Past = Past(railed: set<Id>, spoiled: set<Id>, regained: set<Id>, reopened: set<Id>, lowered: set<Id>)

  datatype Shop = Shop(db: Db, work: map<nat, Work>, past: Past)

  datatype Event =
    | Create(input: OrderInput, now: int)
    | Pay(order: Id, now: int)
    | Expire(order: Id)
    | RefundIt(order: Id)
    | Manual(order: Id, text: string, now: int)
    | ManualAgain(process: nat, order: Id)
    | Restock(plan: Id, payload: string)
    | Reserve(item: Id, order: Id)
    | Discard(item: Id)
    | AddPromo(added: Promo)
    | EditPromo(id: Id, saved: Promo)
    | EditPlan(id: Id, edited: Plan)
    | Book(call: Call)
    | SweepSubscriptions(now: int)
    | CancelSubscription(sub: Id)
    | Open(process: nat, order: Id)
    | ReadPaid(process: nat)
    | WriteDelivering(process: nat)
    | FromPool(process: nat)
    | ReadDelivering(process: nat, payload: string)
    | WriteDelivered(process: nat)
    | SupplierExhausted(process: nat)
    | GiveUp(process: nat)
    | Settle(process: nat)
    | Subscribe(process: nat, now: int)
    | ReadSubscription(process: nat, sub: Id)
    | Renew(process: nat, now: int)
    | Rail(after: Db)
    | Crash(process: nat)

  // ---------------------------------------------------------------- steps

  function Goes(s: Shop, p: nat, w: Work): Shop {
    s.(work := s.work[p := w])
  }

  function Drops(s: Shop, p: nat): Shop {
    s.(work := s.work - {p})
  }

  predicate At(s: Shop, p: nat) {
    p in s.work && (s.work[p].Renewing? || s.work[p].order < |s.db.orders|)
  }

  function StatusOf(s: Shop, o: Id): OrderStatus
    requires o < |s.db.orders|
  {
    s.db.orders[o].status
  }

  /** An update of `markDelivering` or `markDelivered` lands on order `o`, whatever it is by then. */
  function Marked(h: Past, o: Id, found: Order): Past {
    h.(spoiled := if GivenBack(found.status) then h.spoiled + {o} else h.spoiled,
       regained := if found.status.Refunded? then h.regained + {o} else h.regained,
       reopened := if found.payload.Some? then h.reopened + {o} else h.reopened)
  }

  function Wrote(s: Shop, o: Id, order: Order): Shop
    requires o < |s.db.orders|
  {
    s.(db := s.db.(orders := s.db.orders[o := order]), past := Marked(s.past, o, s.db.orders[o]))
  }

  /** An admin saves a promo; what has been used of it stays. */
  function EditedPromo(s: Shop, p: Id, saved: Promo): Shop
    requires p < |s.db.promos|
  {
    var promo := saved.(usedCount := s.db.promos[p].usedCount);
    s.(db := s.db.(promos := s.db.promos[p := promo]),
       past := s.past.(lowered := if WithinLimit(promo) then s.past.lowered else s.past.lowered + {p}))
  }

  function Railed(h: Past, orders: set<Id>): Past {
    h.(railed := h.railed + orders)
  }

  // ---------------------------------------------------------------- the other payment rails

  predicate PaidByRail(a: Order, b: Order) {
    a.status.Pending? && b.status.Paid? && b.paidAt.Some?
    && b.(status := a.status, paidAt := a.paidAt, externalId := a.externalId, tronAsk := a.tronAsk) == a
  }

  /** What a CryptoBot, Stars or USDT settlement may do: sell PENDING orders, write payments, and book
      top-ups, surpluses and reclaims; never a balance purchase, a refund or a renewal. */
  ghost predicate RailMoves(db: Db, db': Db) {
    && |db'.orders| == |db.orders|
    && (forall o: Id | o < |db.orders| :: db'.orders[o] == db.orders[o] || PaidByRail(db.orders[o], db'.orders[o]))
    && db' == db.(orders := db'.orders, payments := db'.payments, ledger := db'.ledger, flagged := db'.flagged, anomalies := db'.anomalies)
    && Extends(db.ledger, db'.ledger) && (Sound(db.ledger) ==> Sound(db'.ledger))
    && (forall n: nat | |db.ledger.rows| <= n < |db'.ledger.rows| ::
          !db'.ledger.rows[n].kind.Refund? && BuyersRow(db.orders, db'.ledger.rows[n]))
    && (forall k | k in db'.ledger.records && k !in db.ledger.records :: KeyOrder(k).None? && !k.RenewalOf?)
  }

  /** A row about order `o` on its buyer's balance. */
  predicate Concerns(r: Row, buyer: Id, o: Id) {
    r.order == Some(o) && r.user == buyer
  }

  /** The orders such a step sold, or booked something for on their buyer's balance. */
  ghost function Touched(db: Db, db': Db): set<Id> {
    set o: Id | o < |db.orders| && (|db'.orders| != |db.orders| || db'.orders[o] != db.orders[o]
                                    || exists n: nat :: |db.ledger.rows| <= n < |db'.ledger.rows| && Concerns(db'.ledger.rows[n], db.orders[o].user, o))
  }

  // ---------------------------------------------------------------- one step

  ghost function Apply(s: Shop, e: Event): Shop {
    match e
    case Rail(after) => if RailMoves(s.db, after) then s.(db := after, past := Railed(s.past, Touched(s.db, after))) else s
    case EditPromo(p, saved) => if p < |s.db.promos| then EditedPromo(s, p, saved) else s
    case ManualAgain(p, o) => if o < |s.db.orders| && StatusOf(s, o).Delivered? then Goes(s, p, Subscribing(o)) else s
    case Open(p, o) =>
      if o >= |s.db.orders| then s
      else if StatusOf(s, o).Delivered? then Goes(s, p, Subscribing(o))
      else if StatusOf(s, o).Paid? || StatusOf(s, o).Delivering? then Goes(s, p, Opened(o))
      else s
    case ReadSubscription(p, i) =>
      var seen := TakeSnapshot(s.db, i);
      if seen.Ok? then Goes(s, p, Renewing(seen.value)) else s
    case Crash(p) => Drops(s, p)
    case _ =>
      if !UnderWay(e) then s.(db := Transacted(s.db, e))
      else if At(s, e.process) then Proceed(s, e.process, s.work[e.process], e)
      else s
  }

  /** Steps of a process between its first read and its end. */
  predicate UnderWay(e: Event) {
    e.ReadPaid? || e.WriteDelivering? || e.FromPool? || e.ReadDelivering? || e.WriteDelivered?
    || e.SupplierExhausted? || e.GiveUp? || e.Settle? || e.Subscribe? || e.Renew?
  }

  /** Whole transactions: a failed one changed nothing. */
  function Transacted(db: Db, e: Event): Db {
    match e
    case Create(input, now) =>
      if !input.key.ClientKey? || input.expiresInMs != DEFAULT_ORDER_EXPIRY_MS then db
      else
        var tx := CreateOrderTx(db, input, now);
        if tx.Ok? then tx.value.db else db
    case Pay(o, now) => Committed(db, PayFromBalanceTx(db, o, now))
    case Expire(o) => Committed(db, ExpireOrderTx(db, o))
    case RefundIt(o) => Committed(db, RefundOrderTx(db, o))
    case Manual(o, text, now) => if Trim(text) == "" then db else Committed(db, ManualCommitTx(db, o, text, now))
    case Book(call) =>
      if call.entry.key.OtherKey? && call.entry.payment.None? && OfOthers(db.orders, call.entry)
      then db.(ledger := Post(db.ledger, call).ledger)
      else db
    case SweepSubscriptions(now) => ExpireSubscriptionsTx(db, now)
    case CancelSubscription(i) =>
      if i < |db.subs| then db.(subs := db.subs[i := db.subs[i].(status := Cancelled)]) else db
    case _ => Edited(db, e)
  }

  /** An entry about no order, or one for somebody else than the order's buyer, as a referral bonus is. */
  predicate OfOthers(orders: seq<Order>, entry: Entry) {
    entry.order.Some? ==>
      entry.order.value < |orders| && entry.user != orders[entry.order.value].user
      && !entry.kind.Refund? && !entry.kind.Purchase? && !entry.kind.TopUp?
  }

  /** Steps of the back office on stock, promos and plans. How an item becomes RESERVED is not part
      of this model beyond what a reservation is: an AVAILABLE item given to an order without one. */
  function Edited(db: Db, e: Event): Db {
    match e
    case Restock(plan, payload) => db.(stock := db.stock + [StockItem(plan, payload, Available, None)])
    case Reserve(i, o) =>
      if i < |db.stock| && db.stock[i].status.Available? && o < |db.orders| && OwnedItem(db.stock, o).None?
      then db.(stock := db.stock[i := db.stock[i].(status := Reserved, order := Some(o))])
      else db
    case Discard(i) =>
      if i < |db.stock| && db.stock[i].status.Available? then db.(stock := db.stock[i := db.stock[i].(status := Deleted)]) else db
    case AddPromo(promo) => db.(promos := db.promos + [promo.(usedCount := 0)])
    case EditPlan(i, plan) => if i < |db.plans| then db.(plans := db.plans[i := plan]) else db
    case _ => db
  }

  function Proceed(s: Shop, p: nat, w: Work, e: Event): Shop
    requires w.Renewing? || w.order < |s.db.orders|
  {
    match w
    case Opened(o) =>
      if !e.ReadPaid? then s
      else if StatusOf(s, o).Delivering? then Goes(s, p, Dispatching(o))
      else if MayMove(StatusOf(s, o), Delivering) then Goes(s, p, WritingDelivering(o))
      else Drops(s, p)
    case WritingDelivering(o) =>
      if e.WriteDelivering? then Goes(Wrote(s, o, s.db.orders[o].(status := Delivering)), p, Dispatching(o)) else s
    case Dispatching(o) => Dispatch(s, p, o, e)
    case WritingDelivered(o, payload) =>
      if e.WriteDelivered?
      then Goes(Wrote(s, o, s.db.orders[o].(status := Delivered, payload := Some(payload))), p, Subscribing(o))
      else s
    case Settling(o) => if e.Settle? then Drops(s.(db := Settled(s.db, o)), p) else s
    case Subscribing(o) => if e.Subscribe? then Drops(s.(db := Subscribed(s.db, o, e.now)), p) else s
    case Renewing(seen) =>
      if !e.Renew? then s
      else
        var tx := RenewTx(s.db, seen, e.now);
        if tx.Ok? then Drops(s.(db := tx.value, past := Railed(s.past, {|s.db.orders|})), p) else Drops(s, p)
  }

  /** The strategies: the pool's transaction, the generator's or supplier's `markDelivered`, the
      supplier exhausted, or a failure that leaves the settlement to `settleFailedDelivery`. */
  function Dispatch(s: Shop, p: nat, o: Id, e: Event): Shop
    requires o < |s.db.orders|
  {
    match e
    case FromPool(_) =>
      var tx := DeliverFromPoolTx(s.db, o);
      if tx.Ok? then Goes(s.(db := tx.value), p, Subscribing(o))
      else if tx.error.StockUnavailable? then Goes(s, p, Settling(o))
      else Drops(s, p)
    case ReadDelivering(_, payload) =>
      if MayMove(StatusOf(s, o), Delivered) then Goes(s, p, WritingDelivered(o, payload)) else s
    case SupplierExhausted(_) =>
      var tx := FailAndRefundTx(s.db, o);
      if tx.Ok? then Goes(s.(db := tx.value), p, Settling(o)) else Drops(s, p)
    case GiveUp(_) => Goes(s, p, Settling(o))
    case _ => s
  }

  const NOTHING := Past({}, {}, {}, {}, {})

  function Empty(plans: seq<Plan>): Shop {
    Shop(Db(plans, [], [], EMPTY_LEDGER, [], [], [], {}, []), map[], NOTHING)
  }

  /** A run from the empty shop, state by state. */
  ghost predicate IsRun(plans: seq<Plan>, run: seq<Shop>, events: seq<Event>) {
    && |run| == |events| + 1 && run[0] == Empty(plans)
    && forall i: nat {:trigger events[i]} | i < |events| :: run[i + 1] == Apply(run[i], events[i])
  }

  // ---------------------------------------------------------------- the money of an order

  function NetShare(buyer: Id, o: Id): Row -> int {
    (r: Row) => if Concerns(r, buyer, o) then r.amountCents else 0
  }

  /** The net effect of an order on its buyer's balance. */
  function NetTotal(rows: seq<Row>, buyer: Id, o: Id): int {
    Sum(rows, NetShare(buyer, o))
  }

  predicate Unpaid(s: OrderStatus) { s.Pending? || s.Expired? }
  predicate GivenBack(s: OrderStatus) { s.Failed? || s.Refunded? }

  predicate RefundExact(order: Order, l: Ledger, o: Id) {
    && RefundTotal(l.rows, o) == (if GivenBack(order.status) then order.amountCents else 0)
    && (!GivenBack(order.status) ==> RefundOf(o) !in l.records && FailureRefundOf(o) !in l.records)
  }

  predicate ChargeExact(order: Order, l: Ledger, o: Id) {
    && NetTotal(l.rows, order.user, o) == (if Held(order.status) then 0 - order.amountCents else 0)
    && (PurchaseOf(o) in l.records <==> order.amountCents > 0 && !Unpaid(order.status))
  }

  predicate MoneyOf(order: Order, l: Ledger, o: Id, railed: bool) {
    RefundExact(order, l, o) && (!railed ==> ChargeExact(order, l, o))
  }

  function KeyOrder(k: Key): Option<Id> {
    match k
    case PurchaseOf(o) => Some(o)
    case RefundOf(o) => Some(o)
    case FailureRefundOf(o) => Some(o)
    case _ => None
  }

  /** A row about an order is about one there is; and what was paid for it, given back for it or left over from
      it is on its buyer's balance. Only other bookings, such as a referral bonus, may be on another's. */
  predicate BuyersRow(orders: seq<Order>, r: Row) {
    r.order.Some? ==>
      && r.order.value < |orders|
      && (r.kind.Refund? || r.kind.Purchase? || r.kind.TopUp? ==> r.user == orders[r.order.value].user)
  }

  predicate RowsLinked(l: Ledger, orders: seq<Order>) {
    && (forall r | r in l.rows :: BuyersRow(orders, r))
    && (forall k | k in l.records :: KeyOrder(k).Some? ==> KeyOrder(k).value < |orders|)
  }

  /** The books of every order no late write found given back. */
  predicate MoneyInv(orders: seq<Order>, l: Ledger, h: Past) {
    && RowsLinked(l, orders)
    && forall o: Id | o < |orders| && o !in h.spoiled :: MoneyOf(orders[o], l, o, o in h.railed)
  }

  /** At most one row and its record were added, both about order `who`, on the balance of `user`. */
  ghost predicate Adds(l: Ledger, l': Ledger, who: Option<Id>, user: Id) {
    l' == l || exists r, k, v :: AddsRow(l, l', who, user, r, k, v)
  }

  predicate AddsRow(l: Ledger, l': Ledger, who: Option<Id>, user: Id, r: Row, k: Key, v: Record) {
    l'.rows == l.rows + [r] && r.order == who && r.user == user && KeyOrder(k) == who && l'.records == l.records[k := v]
  }

  lemma PostAdds(l: Ledger, c: Call)
    requires KeyOrder(c.entry.key) == c.entry.order
    ensures Adds(l, Post(l, c).ledger, c.entry.order, c.entry.user)
  {
    var l' := Post(l, c).ledger;
    if l' != l {
      assert AddsRow(l, l', c.entry.order, c.entry.user, l'.rows[|l.rows|], c.entry.key, l'.records[c.entry.key]);
    }
  }

  /** A row about somebody else changes nothing for order `o`. */
  lemma AddsElsewhere(order: Order, l: Ledger, l': Ledger, who: Option<Id>, user: Id, o: Id, railed: bool)
    requires Adds(l, l', who, user) && who != Some(o) && MoneyOf(order, l, o, railed)
    ensures MoneyOf(order, l', o, railed)
  {
    if l' != l {
      var r, k, v :| AddsRow(l, l', who, user, r, k, v);
      SumAppend(l.rows, r, RefundShare(o));
      SumAppend(l.rows, r, NetShare(order.user, o));
    }
  }

  lemma AddsLinked(orders: seq<Order>, orders': seq<Order>, l: Ledger, l': Ledger, who: Option<Id>, user: Id)
    requires Adds(l, l', who, user) && RowsLinked(l, orders) && (who.Some? ==> who.value < |orders| && user == orders[who.value].user)
    requires |orders'| == |orders| && forall o: Id | o < |orders| :: orders'[o].user == orders[o].user
    ensures RowsLinked(l', orders')
  {
    forall r | r in l.rows ensures BuyersRow(orders', r) {
      assert BuyersRow(orders, r);
    }
    if l' != l {
      var r, k, v :| AddsRow(l, l', who, user, r, k, v);
    }
  }

  /** A step about one order keeps every other order's books. */
  lemma MoneyStep(orders: seq<Order>, orders': seq<Order>, l: Ledger, l': Ledger, h: Past, o: Id)
    requires MoneyInv(orders, l, h) && o < |orders|
    requires |orders'| == |orders| && orders' == orders[o := orders'[o]] && orders'[o].user == orders[o].user
    requires Adds(l, l', Some(o), orders[o].user) && (o !in h.spoiled ==> MoneyOf(orders'[o], l', o, o in h.railed))
    ensures MoneyInv(orders', l', h)
  {
    AddsLinked(orders, orders', l, l', Some(o), orders[o].user);
    forall x: Id | x < |orders'| && x !in h.spoiled ensures MoneyOf(orders'[x], l', x, x in h.railed) {
      if x != o {
        AddsElsewhere(orders[x], l, l', Some(o), orders[o].user, x, x in h.railed);
      }
    }
  }

  lemma MoneyBook(orders: seq<Order>, l: Ledger, l': Ledger, h: Past, user: Id)
    requires MoneyInv(orders, l, h) && Adds(l, l', None, user)
    ensures MoneyInv(orders, l', h)
  {
    AddsLinked(orders, orders, l, l', None, user);
    forall x: Id | x < |orders| && x !in h.spoiled ensures MoneyOf(orders[x], l', x, x in h.railed) {
      AddsElsewhere(orders[x], l, l', None, user, x, x in h.railed);
    }
  }

  /** A booking of somebody else leaves the order's books alone. */
  lemma BookElsewhere(order: Order, l: Ledger, c: Call, o: Id, railed: bool)
    requires MoneyOf(order, l, o, railed) && c.entry.key.OtherKey?
    requires c.entry.order == Some(o) ==> c.entry.user != order.user && !c.entry.kind.Refund?
    ensures MoneyOf(order, Post(l, c).ledger, o, railed)
  {
    var l' := Post(l, c).ledger;
    if l' != l {
      SumAppend(l.rows, l'.rows[|l.rows|], RefundShare(o));
      SumAppend(l.rows, l'.rows[|l.rows|], NetShare(order.user, o));
    }
  }

  lemma MoneyOthers(orders: seq<Order>, l: Ledger, c: Call, h: Past)
    requires MoneyInv(orders, l, h) && c.entry.key.OtherKey? && OfOthers(orders, c.entry)
    ensures MoneyInv(orders, Post(l, c).ledger, h)
  {
    forall x: Id | x < |orders| && x !in h.spoiled ensures MoneyOf(orders[x], Post(l, c).ledger, x, x in h.railed) {
      BookElsewhere(orders[x], l, c, x, x in h.railed);
    }
    hide MoneyOf;
  }

  /** An order that is inserted has no rows yet. */
  lemma MoneyAppend(orders: seq<Order>, order: Order, l: Ledger, h: Past)
    requires MoneyInv(orders, l, h)
    requires order.status.Pending? || (|orders| in h.railed && !GivenBack(order.status))
    ensures MoneyInv(orders + [order], l, h)
  {
    SumZero(l.rows, RefundShare(|orders|));
    SumZero(l.rows, NetShare(order.user, |orders|));
  }

  lemma RefundBooks(order: Order, order': Order, l: Ledger, o: Id, key: Key, railed: bool)
    requires MoneyOf(order, l, o, railed) && Held(order.status) && GivenBack(order'.status)
    requires order'.amountCents == order.amountCents && order'.user == order.user
    requires key == RefundOf(o) || key == FailureRefundOf(o)
    ensures var p := Post(l, Credit(RefundEntry(order, o, key)));
            && (order.amountCents > 0 && p.answer.Ok? ==> MoneyOf(order', p.ledger, o, railed))
            && (order.amountCents == 0 ==> MoneyOf(order', l, o, railed))
  {
    var r := Row(order.user, LedgerType.Refund, order.amountCents, Some(o), None);
    SumAppend(l.rows, r, RefundShare(o));
    SumAppend(l.rows, r, NetShare(order.user, o));
  }

  lemma PurchaseBooks(order: Order, order': Order, l: Ledger, o: Id, railed: bool)
    requires MoneyOf(order, l, o, railed) && (order.status.Pending? || Held(order.status)) && Held(order'.status)
    requires order'.amountCents == order.amountCents && order'.user == order.user
    ensures var p := Post(l, Debit(PurchaseEntry(order, o)));
            && (order.amountCents > 0 && p.answer.Ok? ==> MoneyOf(order', p.ledger, o, railed))
            && (order.amountCents == 0 ==> MoneyOf(order', l, o, railed))
  {
    var r := Row(order.user, LedgerType.Purchase, 0 - order.amountCents, Some(o), None);
    SumAppend(l.rows, r, RefundShare(o));
    SumAppend(l.rows, r, NetShare(order.user, o));
  }

  // ---------------------------------------------------------------- goods, promos, periods

  /** What was paid has its moment of payment, what was delivered has its payload. */
  predicate DealOf(order: Order, reopened: bool) {
    && (!Unpaid(order.status) ==> order.paidAt.Some?)
    && (order.status.Delivered? ==> order.payload.Some?)
    && (order.payload.Some? && !reopened ==> order.status.Delivered? || order.status.Refunded?)
  }

  /** No item belongs to two orders (it has one owner), and no order owns two items. */
  predicate StockInv(n: nat, stock: seq<StockItem>) {
    && (forall i: Id | i < |stock| :: stock[i].status.Available? || stock[i].status.Deleted? <==> stock[i].order.None?)
    && (forall i: Id | i < |stock| && stock[i].order.Some? :: stock[i].order.value < n)
    && (forall i: Id, j: Id | i < |stock| && j < |stock| && stock[i].order.Some? && stock[i].order == stock[j].order :: i == j)
  }

  predicate GoodsInv(orders: seq<Order>, stock: seq<StockItem>, h: Past) {
    && (forall o: Id | o < |orders| :: DealOf(orders[o], o in h.reopened))
    && StockInv(|orders|, stock)
  }

  function HolderShare(p: Id): Order -> int {
    (order: Order) => if order.promo == Some(p) && !order.status.Expired? && !order.status.Refunded? then 1 else 0
  }

  /** The orders that hold a use of promo `p`. */
  function Holders(orders: seq<Order>, p: Id): int {
    Sum(orders, HolderShare(p))
  }

  /** No late write brought a REFUNDED order of promo `p` back. */
  predicate NoneRegained(orders: seq<Order>, h: Past, p: Id) {
    forall o: Id | o < |orders| && orders[o].promo == Some(p) :: o !in h.regained
  }

  predicate WithinLimit(promo: Promo) {
    promo.maxUses.Some? && promo.usedCount > 0 ==> promo.usedCount <= promo.maxUses.value
  }

  predicate PromoOf(orders: seq<Order>, promo: Promo, h: Past, p: Id) {
    && promo.usedCount >= 0
    && (p !in h.lowered ==> WithinLimit(promo))
    && (NoneRegained(orders, h, p) ==> promo.usedCount == Holders(orders, p))
  }

  predicate PromoInv(orders: seq<Order>, promos: seq<Promo>, h: Past) {
    && (forall o: Id | o < |orders| :: orders[o].promo.Some? ==> orders[o].promo.value < |promos|)
    && forall p: Id | p < |promos| :: PromoOf(orders, promos[p], h, p)
  }

  predicate Debited(record: Record, cents: int) {
    record.LedgerRecord? && record.result.kind.Purchase? && record.result.amountCents == 0 - cents
  }

  /** `next` is the period that renewal order `order` bought after `ended`. */
  predicate Continues(ended: Subscription, next: Subscription, order: Order) {
    && order.key.RenewalOrderOf? && ended.expiresAt == order.key.expiresAt && !ended.status.Active?
    && next.user == order.user == ended.user && next.plan == order.plan == ended.plan
    && next.startsAt == (if ended.expiresAt > order.createdAt then ended.expiresAt else order.createdAt)
    && next.expiresAt >= next.startsAt
  }

  predicate RenewalDone(db: Db, o: Id)
    requires o < |db.orders|
  {
    db.orders[o].key.RenewalOrderOf? ==>
      var next := SubscriptionOf(db.subs, o);
      && next.Some? && db.orders[o].key.sub < next.value
      && Continues(db.subs[db.orders[o].key.sub], db.subs[next.value], db.orders[o])
      && var key := RenewalOf(db.orders[o].key.sub, db.orders[o].key.expiresAt);
         && (db.orders[o].amountCents > 0 <==> key in db.ledger.records)
         && (key in db.ledger.records ==> Debited(db.ledger.records[key], db.orders[o].amountCents))
  }

  /** A period is the buyer's of its order and of the order's plan, and starts when that was paid; only a
      renewal's starts later, when the old period ends. */
  predicate Fits(s: Subscription, order: Order) {
    && s.user == order.user && s.plan == order.plan && !Unpaid(order.status)
    && (order.key.ClientKey? ==> order.paidAt == Some(s.startsAt))
  }

  /** One order per key, one period per order, and a renewal's debit, order, closed period and
      successor together. */
  predicate PeriodInv(db: Db) {
    && (forall i: Id, j: Id | i < |db.orders| && j < |db.orders| && db.orders[i].key == db.orders[j].key :: i == j)
    && (forall i: Id | i < |db.subs| :: db.subs[i].order < |db.orders| && Fits(db.subs[i], db.orders[db.subs[i].order]))
    && (forall i: Id, j: Id | i < |db.subs| && j < |db.subs| && db.subs[i].order == db.subs[j].order :: i == j)
    && (forall o: Id | o < |db.orders| :: RenewalDone(db, o))
    && (forall k | k in db.ledger.records && k.RenewalOf? ::
          FindByKey(db.orders, RenewalOrderOf(k.sub, k.expiresAt)).Some?)
  }

  ghost predicate DbInv(db: Db, h: Past) {
    && MoneyInv(db.orders, db.ledger, h)
    && GoodsInv(db.orders, db.stock, h)
    && PromoInv(db.orders, db.promos, h)
    && PeriodInv(db)
    && Sound(db.ledger)
  }

  /** Every process under way found its order paid; an update to DELIVERED still outstanding was
      approved on a DELIVERING order; a renewal read a subscription that was ACTIVE. */
  predicate WorkOk(s: Shop, w: Work) {
    if w.Renewing? then w.seen.sub < |s.db.subs| && SubGrows(w.seen.row, s.db.subs[w.seen.sub])
    else w.order < |s.db.orders| && !Unpaid(StatusOf(s, w.order)) && (w.WritingDelivered? ==> !StatusOf(s, w.order).Paid?)
  }

  predicate WorkInv(s: Shop) {
    forall p | p in s.work :: WorkOk(s, s.work[p])
  }

  ghost predicate Inv(s: Shop) {
    DbInv(s.db, s.past) && WorkInv(s)
  }

  // ---------------------------------------------------------------- what only ever grows

  /** The statuses an order can still reach. */
  predicate Later(from: OrderStatus, to: OrderStatus) {
    match from
    case Pending => true
    case Paid => !Unpaid(to)
    case Delivering => !Unpaid(to) && !to.Paid?
    case Delivered => to.Delivered? || to.Refunded?
    case Failed => GivenBack(to)
    case Refunded => to.Refunded?
    case Expired => to.Expired?
  }

  /** What holds of an order whatever lands on it: who bought what for how much never changes, a paid
      order never gets unpaid or PAID again, a stored payload is never erased. */
  predicate OrderGrows(a: Order, b: Order) {
    && b.(status := a.status, payload := a.payload, paidAt := a.paidAt, externalId := a.externalId, tronAsk := a.tronAsk) == a
    && (b.status.Pending? ==> a.status.Pending?)
    && (b.status.Paid? ==> a.status.Pending? || a.status.Paid?)
    && (Unpaid(b.status) ==> Unpaid(a.status)) && (a.status.Expired? ==> b.status.Expired?)
    && (!Unpaid(a.status) ==> b.paidAt == a.paidAt)
    && (a.payload.Some? ==> b.payload.Some?)
  }

  /** And what holds of it unless a late write has landed on it. */
  predicate OrderKeeps(a: Order, b: Order, o: Id, h: Past) {
    o !in h.reopened ==> (a.payload.Some? ==> b.payload == a.payload) && (o !in h.spoiled ==> Later(a.status, b.status))
  }

  predicate Follows(a: Order, b: Order, o: Id, h: Past) {
    OrderGrows(a, b) && OrderKeeps(a, b, o, h)
  }

  /** A period is only ever closed. */
  predicate SubGrows(a: Subscription, b: Subscription) {
    b.(status := a.status) == a && (b.status.Active? ==> a.status.Active?)
  }

  /** No order goes back, a SOLD item stays SOLD to its order, the ledger is append-only; `h` is what
      is remembered when it has come to `db'`. */
  ghost predicate Grows(db: Db, db': Db, h: Past) {
    && |db.orders| <= |db'.orders|
    && (forall o: Id | o < |db.orders| :: Follows(db.orders[o], db'.orders[o], o, h))
    && |db.stock| <= |db'.stock|
    && (forall i: Id | i < |db.stock| && db.stock[i].status.Sold? :: db'.stock[i] == db.stock[i])
    && |db.subs| <= |db'.subs|
    && (forall i: Id | i < |db.subs| :: SubGrows(db.subs[i], db'.subs[i]))
    && Extends(db.ledger, db'.ledger)
  }

  predicate Remembers(h: Past, h': Past) {
    && h.railed <= h'.railed && h.spoiled <= h'.spoiled && h.regained <= h'.regained && h.reopened <= h'.reopened
    && h.lowered <= h'.lowered
  }

  // ---------------------------------------------------------------- steps of one table

  lemma PromoSame(orders: seq<Order>, promos: seq<Promo>, h: Past, o: Id, order': Order)
    requires PromoInv(orders, promos, h) && o < |orders| && order'.promo == orders[o].promo
    requires o in h.regained
             || (order'.status.Expired? || order'.status.Refunded?) == (orders[o].status.Expired? || orders[o].status.Refunded?)
    ensures PromoInv(orders[o := order'], promos, h)
  {
    var orders' := orders[o := order'];
    forall p: Id | p < |promos| ensures PromoOf(orders', promos[p], h, p) {
      SumUpdate(orders, o, order', HolderShare(p));
      assert PromoOf(orders, promos[p], h, p);
      assert NoneRegained(orders', h, p) ==> NoneRegained(orders, h, p);
    }
  }

  /** The use an order gives back was counted, so the floor at zero is never reached. */
  lemma PromoReleased(orders: seq<Order>, promos: seq<Promo>, h: Past, o: Id, order': Order)
    requires PromoInv(orders, promos, h) && o < |orders| && order'.promo == orders[o].promo
    requires order'.status.Expired? || order'.status.Refunded?
    requires !orders[o].status.Expired? && !orders[o].status.Refunded?
    ensures PromoInv(orders[o := order'], ReleasePromo(promos, orders[o].promo), h)
    ensures orders[o].promo.Some? && NoneRegained(orders, h, orders[o].promo.value) ==> promos[orders[o].promo.value].usedCount >= 1
  {
    var orders', promos' := orders[o := order'], ReleasePromo(promos, orders[o].promo);
    forall p: Id | p < |promos|
      ensures PromoOf(orders', promos'[p], h, p)
      ensures orders[o].promo == Some(p) && NoneRegained(orders, h, p) ==> promos[p].usedCount >= 1
    {
      SumUpdate(orders, o, order', HolderShare(p));
      SumBounds(orders', HolderShare(p), 1);
      assert PromoOf(orders, promos[p], h, p);
      assert NoneRegained(orders', h, p) ==> NoneRegained(orders, h, p);
    }
  }

  lemma GoodsOrder(orders: seq<Order>, stock: seq<StockItem>, h: Past, o: Id, order': Order)
    requires GoodsInv(orders, stock, h) && o < |orders| && DealOf(order', o in h.reopened)
    ensures GoodsInv(orders[o := order'], stock, h)
  {
  }

  lemma GoodsReleased(orders: seq<Order>, stock: seq<StockItem>, h: Past, o: Id)
    requires GoodsInv(orders, stock, h)
    ensures GoodsInv(orders, ReleaseReserved(stock, o), h)
  {
    hide DealOf;
    var stock' := ReleaseReserved(stock, o);
    forall i: Id, j: Id | i < |stock'| && j < |stock'| && stock'[i].order.Some? && stock'[i].order == stock'[j].order
      ensures i == j
    {
      assert stock[i].order == stock[j].order;
    }
  }

  lemma SamePeriod(subs: seq<Subscription>, subs': seq<Subscription>, o: Id)
    requires |subs| <= |subs'| && forall i: Id | i < |subs| :: SubGrows(subs[i], subs'[i])
    requires forall i: Id, j: Id | i < |subs'| && j < |subs'| && subs'[i].order == subs'[j].order :: i == j
    ensures SubscriptionOf(subs, o).Some? ==> SubscriptionOf(subs', o) == SubscriptionOf(subs, o)
  {
    var i := SubscriptionOf(subs, o);
    if i.Some? {
      assert subs'[i.value] in subs';
      assert subs'[i.value].order == o;
    }
  }

  /** What a renewal has done stays done while orders keep who they are and periods are only closed. */
  lemma RenewalStays(db: Db, db': Db, o: Id)
    requires o < |db.orders| <= |db'.orders| && RenewalDone(db, o) && OrderGrows(db.orders[o], db'.orders[o])
    requires |db.subs| <= |db'.subs| && forall i: Id | i < |db.subs| :: SubGrows(db.subs[i], db'.subs[i])
    requires forall i: Id, j: Id | i < |db'.subs| && j < |db'.subs| && db'.subs[i].order == db'.subs[j].order :: i == j
    requires Extends(db.ledger, db'.ledger)
    requires db.orders[o].key.RenewalOrderOf? ==>
               var k := RenewalOf(db.orders[o].key.sub, db.orders[o].key.expiresAt);
               k in db'.ledger.records ==> k in db.ledger.records
    ensures RenewalDone(db', o)
  {
    hide SubscriptionOf;
    SamePeriod(db.subs, db'.subs, o);
  }

  lemma {:induction false} SameKeys(orders: seq<Order>, orders': seq<Order>, key: OrderKey)
    requires |orders| == |orders'| && forall o: Id | o < |orders| :: orders'[o].key == orders[o].key
    ensures FindByKey(orders', key) == FindByKey(orders, key)
  {
    if orders != [] {
      SameKeys(orders[..|orders| - 1], orders'[..|orders| - 1], key);
    }
  }

  /** No order was added and no renewal was booked. */
  lemma PeriodFrame(db: Db, db': Db)
    requires PeriodInv(db) && |db'.orders| == |db.orders| && forall o: Id | o < |db.orders| :: OrderGrows(db.orders[o], db'.orders[o])
    requires |db.subs| <= |db'.subs| && forall i: Id | i < |db.subs| :: SubGrows(db.subs[i], db'.subs[i])
    requires forall i: Id | |db.subs| <= i < |db'.subs| :: db'.subs[i].order < |db.orders| && Fits(db'.subs[i], db'.orders[db'.subs[i].order])
    requires forall i: Id, j: Id | i < |db'.subs| && j < |db'.subs| && db'.subs[i].order == db'.subs[j].order :: i == j
    requires Extends(db.ledger, db'.ledger)
    requires forall k: Key | k.RenewalOf? :: k in db'.ledger.records <==> k in db.ledger.records
    ensures PeriodInv(db')
  {
    forall o: Id | o < |db.orders| ensures db'.orders[o].key == db.orders[o].key {
      assert OrderGrows(db.orders[o], db'.orders[o]);
    }
    forall i: Id | i < |db.subs| ensures db'.subs[i].order < |db'.orders| && Fits(db'.subs[i], db'.orders[db'.subs[i].order]) {
      assert SubGrows(db.subs[i], db'.subs[i]) && Fits(db.subs[i], db.orders[db.subs[i].order]);
      assert OrderGrows(db.orders[db.subs[i].order], db'.orders[db.subs[i].order]);
    }
    hide FindByKey, SubscriptionOf, RenewalDone, OrderGrows, Fits;
    forall x: Id | x < |db'.orders| ensures RenewalDone(db', x) {
      RenewalStays(db, db', x);
    }
    forall k | k in db'.ledger.records && k.RenewalOf?
      ensures FindByKey(db'.orders, RenewalOrderOf(k.sub, k.expiresAt)).Some?
    {
      SameKeys(db.orders, db'.orders, RenewalOrderOf(k.sub, k.expiresAt));
    }
  }

  /** A transaction about one order, assembled from its tables. */
  lemma OrderStep(db: Db, db': Db, h: Past, o: Id)
    requires DbInv(db, h) && o < |db.orders| == |db'.orders|
    requires db'.orders == db.orders[o := db'.orders[o]] && Follows(db.orders[o], db'.orders[o], o, h) && db'.subs == db.subs
    requires MoneyInv(db'.orders, db'.ledger, h) && Sound(db'.ledger) && Extends(db.ledger, db'.ledger)
    requires forall k: Key | k.RenewalOf? :: k in db'.ledger.records <==> k in db.ledger.records
    requires PromoInv(db'.orders, db'.promos, h) && GoodsInv(db'.orders, db'.stock, h)
    requires |db.stock| <= |db'.stock| && forall i: Id | i < |db.stock| && db.stock[i].status.Sold? :: db'.stock[i] == db.stock[i]
    ensures DbInv(db', h) && Grows(db, db', h)
  {
    hide MoneyInv, PromoInv, GoodsInv, Sound;
    PeriodFrame(db, db');
  }

  lemma PostSoundExtends(l: Ledger, c: Call)
    requires Sound(l)
    ensures Sound(Post(l, c).ledger) && Extends(l, Post(l, c).ledger)
  {
    PostSound(l, c);
  }

  // ---------------------------------------------------------------- every transaction keeps the books

  /** What `createOrder` adds, if it adds anything. */
  lemma CreatedParts(db: Db, input: OrderInput, now: int)
    requires CreateOrderTx(db, input, now).Ok? && CreateOrderTx(db, input, now).value.db != db
    ensures var db' := CreateOrderTx(db, input, now).value.db;
            && |db'.orders| == |db.orders| + 1 && db'.orders == db.orders + [db'.orders[|db.orders|]]
            && db'.orders[|db.orders|].status.Pending? && db'.orders[|db.orders|].promo == input.promo
            && (if input.promo.None? then db'.promos == db.promos
                else input.promo.value < |db.promos| && ClaimPromo(db.promos, input.promo.value) == Some(db'.promos))
  {
    hide FindByKey;
  }

  lemma CreatePromos(db: Db, h: Past, input: OrderInput, now: int)
    requires PromoInv(db.orders, db.promos, h) && CreateOrderTx(db, input, now).Ok?
    ensures var db' := CreateOrderTx(db, input, now).value.db;
            PromoInv(db'.orders, db'.promos, h)
  {
    hide CreateOrderTx;
    var db' := CreateOrderTx(db, input, now).value.db;
    if db' != db {
      CreatedParts(db, input, now);
      var order := db'.orders[|db.orders|];
      assert db'.orders == db.orders + [order];
      forall p: Id | p < |db'.promos| ensures PromoOf(db'.orders, db'.promos[p], h, p) {
        SumAppend(db.orders, order, HolderShare(p));
        assert PromoOf(db.orders, db.promos[p], h, p);
        if NoneRegained(db'.orders, h, p) {
          forall o: Id | o < |db.orders| && db.orders[o].promo == Some(p) ensures o !in h.regained {
            assert db'.orders[o] == db.orders[o];
          }
        }
      }
    }
  }

  /** A new order under a fresh client key. */
  lemma PeriodAppend(db: Db, db': Db, order: Order)
    requires PeriodInv(db) && db'.orders == db.orders + [order] && db'.subs == db.subs && db'.ledger == db.ledger
    requires order.key.ClientKey? && FindByKey(db.orders, order.key).None?
    ensures PeriodInv(db')
  {
    forall x: Id | x < |db'.orders| ensures RenewalDone(db', x) {
      if x < |db.orders| { assert RenewalDone(db, x); }
    }
    forall k | k in db'.ledger.records && k.RenewalOf?
      ensures FindByKey(db'.orders, RenewalOrderOf(k.sub, k.expiresAt)).Some?
    {
      var i := FindByKey(db.orders, RenewalOrderOf(k.sub, k.expiresAt)).value;
      assert db'.orders[i] in db'.orders && db'.orders[i].key == RenewalOrderOf(k.sub, k.expiresAt);
    }
  }

  lemma CreateKeeps(db: Db, h: Past, input: OrderInput, now: int)
    requires DbInv(db, h) && input.key.ClientKey?
    ensures var tx := CreateOrderTx(db, input, now);
            tx.Ok? ==> DbInv(tx.value.db, h) && Grows(db, tx.value.db, h)
  {
    hide MoneyInv, PromoInv, PeriodInv, Sound;
    var tx := CreateOrderTx(db, input, now);
    if tx.Ok? && tx.value.db != db {
      var db' := tx.value.db;
      var order := db'.orders[|db.orders|];
      assert db'.orders == db.orders + [order];
      MoneyAppend(db.orders, order, db.ledger, h);
      CreatePromos(db, h, input, now);
      PeriodAppend(db, db', order);
      assert GoodsInv(db'.orders, db'.stock, h);
    }
  }

  /** An update of one order's status and payload that has the same books, or the excuse that a late
      write has landed on it. */
  lemma HopKeeps(db: Db, h: Past, o: Id, order': Order)
    requires DbInv(db, h) && o < |db.orders|
    requires Follows(db.orders[o], order', o, h) && DealOf(order', o in h.reopened) && Held(order'.status)
    requires Held(db.orders[o].status) || (db.orders[o].status.Failed? && o in h.spoiled) || (o in h.spoiled && o in h.regained)
    ensures var db' := db.(orders := db.orders[o := order']);
            DbInv(db', h) && Grows(db, db', h)
  {
    assert o !in h.spoiled ==> MoneyOf(db.orders[o], db.ledger, o, o in h.railed);
    hide MoneyInv, GoodsInv, PromoInv, PeriodInv, Sound;
    var db' := db.(orders := db.orders[o := order']);
    MoneyStep(db.orders, db'.orders, db.ledger, db.ledger, h, o);
    PromoSame(db.orders, db.promos, h, o, order');
    GoodsOrder(db.orders, db.stock, h, o, order');
    hide Grows;
    OrderStep(db, db', h, o);
  }

  lemma PayMoney(db: Db, h: Past, o: Id, now: int)
    requires DbInv(db, h) && PayFromBalanceTx(db, o, now).Ok?
    ensures var db' := PayFromBalanceTx(db, o, now).value;
            && MoneyInv(db'.orders, db'.ledger, h) && Sound(db'.ledger) && Extends(db.ledger, db'.ledger)
            && (forall k: Key | k.RenewalOf? :: k in db'.ledger.records <==> k in db.ledger.records)
  {
    hide GoodsInv, PromoInv, PeriodInv, Sound;
    var db', order := PayFromBalanceTx(db, o, now).value, db.orders[o];
    var c := Debit(PurchaseEntry(order, o));
    PostAdds(db.ledger, c);
    PostSoundExtends(db.ledger, c);
    if o !in h.spoiled {
      PurchaseBooks(order, db'.orders[o], db.ledger, o, o in h.railed);
    }
    MoneyStep(db.orders, db'.orders, db.ledger, db'.ledger, h, o);
  }

  lemma PayKeeps(db: Db, h: Past, o: Id, now: int)
    requires DbInv(db, h)
    ensures var tx := PayFromBalanceTx(db, o, now);
            tx.Ok? ==> DbInv(tx.value, h) && Grows(db, tx.value, h)
  {
    if PayFromBalanceTx(db, o, now).Ok? {
      assert DealOf(db.orders[o], o in h.reopened);
      hide MoneyInv, GoodsInv, PromoInv, PeriodInv, Sound;
      var db' := PayFromBalanceTx(db, o, now).value;
      PayMoney(db, h, o, now);
      assert db' == db.(ledger := db'.ledger, orders := db.orders[o := db'.orders[o]]);
      assert Follows(db.orders[o], db'.orders[o], o, h) && DealOf(db'.orders[o], o in h.reopened);
      hide PayFromBalanceTx, DealOf;
      PromoSame(db.orders, db.promos, h, o, db'.orders[o]);
      GoodsOrder(db.orders, db.stock, h, o, db'.orders[o]);
      hide Grows;
      OrderStep(db, db', h, o);
    }
  }

  lemma ExpireKeeps(db: Db, h: Past, o: Id)
    requires DbInv(db, h)
    ensures var tx := ExpireOrderTx(db, o);
            tx.Ok? ==> DbInv(tx.value, h) && Grows(db, tx.value, h)
  {
    if ExpireOrderTx(db, o).Ok? {
      assert o !in h.spoiled ==> MoneyOf(db.orders[o], db.ledger, o, o in h.railed);
      assert DealOf(db.orders[o], o in h.reopened);
      hide MoneyInv, GoodsInv, PromoInv, PeriodInv, Sound;
      var db' := ExpireOrderTx(db, o).value;
      var order' := db'.orders[o];
      MoneyStep(db.orders, db'.orders, db.ledger, db.ledger, h, o);
      PromoReleased(db.orders, db.promos, h, o, order');
      GoodsReleased(db.orders, db.stock, h, o);
      GoodsOrder(db.orders, db'.stock, h, o, order');
      hide Grows;
      OrderStep(db, db', h, o);
    }
  }

  lemma RefundMoney(db: Db, h: Past, o: Id)
    requires DbInv(db, h) && RefundOrderTx(db, o).Ok?
    ensures var db' := RefundOrderTx(db, o).value;
            && MoneyInv(db'.orders, db'.ledger, h) && Sound(db'.ledger) && Extends(db.ledger, db'.ledger)
            && (forall k: Key | k.RenewalOf? :: k in db'.ledger.records <==> k in db.ledger.records)
  {
    hide GoodsInv, PromoInv, PeriodInv, Sound;
    var db', order := RefundOrderTx(db, o).value, db.orders[o];
    var order', c := db'.orders[o], Credit(RefundEntry(order, o, RefundOf(o)));
    PostAdds(db.ledger, c);
    PostSoundExtends(db.ledger, c);
    assert db'.ledger == db.ledger || (order.amountCents > 0 && db'.ledger == Post(db.ledger, c).ledger && Post(db.ledger, c).answer.Ok?);
    if o !in h.spoiled {
      assert MoneyOf(order, db.ledger, o, o in h.railed);
      if Held(order.status) {
        RefundBooks(order, order', db.ledger, o, RefundOf(o), o in h.railed);
        assert order.amountCents > 0 ==> db'.ledger == Post(db.ledger, c).ledger;
      } else {
        assert db'.ledger == db.ledger;
      }
    }
    hide RefundExact, ChargeExact;
    MoneyStep(db.orders, db'.orders, db.ledger, db'.ledger, h, o);
  }

  lemma RefundKeeps(db: Db, h: Past, o: Id)
    requires DbInv(db, h)
    ensures var tx := RefundOrderTx(db, o);
            tx.Ok? ==> DbInv(tx.value, h) && Grows(db, tx.value, h)
  {
    if RefundOrderTx(db, o).Ok? {
      assert DealOf(db.orders[o], o in h.reopened);
      hide MoneyInv, GoodsInv, PromoInv, PeriodInv, Sound;
      var db' := RefundOrderTx(db, o).value;
      var order' := db'.orders[o];
      RefundMoney(db, h, o);
      PromoReleased(db.orders, db.promos, h, o, order');
      GoodsReleased(db.orders, db.stock, h, o);
      GoodsOrder(db.orders, db'.stock, h, o, order');
      hide Grows;
      OrderStep(db, db', h, o);
    }
  }

  lemma FailMoney(db: Db, h: Past, o: Id)
    requires DbInv(db, h) && o < |db.orders| && !db.orders[o].status.Pending? && FailAndRefundTx(db, o).Ok?
    ensures var db' := FailAndRefundTx(db, o).value;
            && MoneyInv(db'.orders, db'.ledger, h) && Sound(db'.ledger) && Extends(db.ledger, db'.ledger)
            && (forall k: Key | k.RenewalOf? :: k in db'.ledger.records <==> k in db.ledger.records)
  {
    hide GoodsInv, PromoInv, PeriodInv, Sound;
    var db', order := FailAndRefundTx(db, o).value, db.orders[o];
    var c := Credit(RefundEntry(order, o, FailureRefundOf(o)));
    PostAdds(db.ledger, c);
    PostSoundExtends(db.ledger, c);
    if o !in h.spoiled {
      RefundBooks(order, db'.orders[o], db.ledger, o, FailureRefundOf(o), o in h.railed);
    }
    MoneyStep(db.orders, db'.orders, db.ledger, db'.ledger, h, o);
  }

  lemma FailKeeps(db: Db, h: Past, o: Id)
    requires DbInv(db, h) && o < |db.orders| && !db.orders[o].status.Pending?
    ensures var tx := FailAndRefundTx(db, o);
            tx.Ok? ==> DbInv(tx.value, h) && Grows(db, tx.value, h)
  {
    if FailAndRefundTx(db, o).Ok? {
      assert DealOf(db.orders[o], o in h.reopened);
      hide MoneyInv, GoodsInv, PromoInv, PeriodInv, Sound;
      var db' := FailAndRefundTx(db, o).value;
      var order' := db'.orders[o];
      FailMoney(db, h, o);
      PromoSame(db.orders, db.promos, h, o, order');
      GoodsReleased(db.orders, db.stock, h, o);
      GoodsOrder(db.orders, db'.stock, h, o, order');
      hide Grows;
      OrderStep(db, db', h, o);
    }
  }

  lemma SoldGoods(db: Db, h: Past, o: Id)
    requires GoodsInv(db.orders, db.stock, h) && DeliverFromPoolTx(db, o).Ok?
    ensures var db' := DeliverFromPoolTx(db, o).value;
            && GoodsInv(db'.orders, db'.stock, h) && |db.stock| == |db'.stock|
            && (forall i: Id | i < |db.stock| && db.stock[i].status.Sold? :: db'.stock[i] == db.stock[i])
            && Follows(db.orders[o], db'.orders[o], o, h)
            && db' == db.(stock := db'.stock, orders := db.orders[o := db'.orders[o]])
  {
    assert DealOf(db.orders[o], o in h.reopened);
  }

  lemma PoolKeeps(db: Db, h: Past, o: Id)
    requires DbInv(db, h)
    ensures var tx := DeliverFromPoolTx(db, o);
            tx.Ok? ==> DbInv(tx.value, h) && Grows(db, tx.value, h)
  {
    if DeliverFromPoolTx(db, o).Ok? {
      assert o !in h.spoiled ==> MoneyOf(db.orders[o], db.ledger, o, o in h.railed);
      hide MoneyInv, GoodsInv, PromoInv, PeriodInv, Sound;
      var db' := DeliverFromPoolTx(db, o).value;
      SoldGoods(db, h, o);
      MoneyStep(db.orders, db'.orders, db.ledger, db'.ledger, h, o);
      PromoSame(db.orders, db.promos, h, o, db'.orders[o]);
      hide Grows, DeliverFromPoolTx;
      OrderStep(db, db', h, o);
    }
  }

  lemma SubscribePeriods(db: Db, o: Id, now: int)
    requires PeriodInv(db) && CreateSubscriptionTx(db, o, now).Ok?
    requires o < |db.orders| && !Unpaid(db.orders[o].status) && db.orders[o].paidAt.Some?
    ensures PeriodInv(CreateSubscriptionTx(db, o, now).value)
  {
    hide LatestExpiry;
    PeriodFrame(db, CreateSubscriptionTx(db, o, now).value);
  }

  /** Only periods are added. */
  lemma SubsGrow(db: Db, subs': seq<Subscription>, h: Past)
    requires DbInv(db, h) && PeriodInv(db.(subs := subs')) && |db.subs| <= |subs'|
    requires forall i: Id | i < |db.subs| :: subs'[i] == db.subs[i]
    ensures DbInv(db.(subs := subs'), h) && Grows(db, db.(subs := subs'), h)
  {
    hide MoneyInv, GoodsInv, PromoInv, PeriodInv, Sound;
  }

  lemma SubscribeKeeps(db: Db, h: Past, o: Id, now: int)
    requires DbInv(db, h) && o < |db.orders| && !Unpaid(db.orders[o].status)
    ensures var tx := CreateSubscriptionTx(db, o, now);
            tx.Ok? ==> DbInv(tx.value, h) && Grows(db, tx.value, h)
  {
    assert PeriodInv(db);
    assert DealOf(db.orders[o], o in h.reopened);
    hide DbInv, Grows, PeriodInv, LatestExpiry, SubscriptionOf;
    var tx := CreateSubscriptionTx(db, o, now);
    if tx.Ok? {
      SubscribePeriods(db, o, now);
      SubsGrow(db, tx.value.subs, h);
    }
  }

  /** Both hops of an operator's delivery. */
  lemma ManualHops(db: Db, h: Past, o: Id, text: string)
    requires DbInv(db, h) && MarkDeliveringTx(db, o).Ok? && MarkDeliveredTx(MarkDeliveringTx(db, o).value, o, text).Ok?
    ensures var db' := MarkDeliveredTx(MarkDeliveringTx(db, o).value, o, text).value;
            DbInv(db', h) && Grows(db, db', h) && o < |db'.orders| && !Unpaid(db'.orders[o].status)
  {
    assert DealOf(db.orders[o], o in h.reopened);
    hide DbInv, Grows;
    var db' := MarkDeliveredTx(MarkDeliveringTx(db, o).value, o, text).value;
    assert db'.orders == db.orders[o := db'.orders[o]];
    assert db' == db.(orders := db.orders[o := db'.orders[o]]);
    HopKeeps(db, h, o, db'.orders[o]);
  }

  lemma ManualKeeps(db: Db, h: Past, o: Id, text: string, now: int)
    requires DbInv(db, h)
    ensures var tx := ManualCommitTx(db, o, text, now);
            tx.Ok? ==> DbInv(tx.value, h) && Grows(db, tx.value, h)
  {
    hide DbInv, Grows, CreateSubscriptionTx, MarkDeliveringTx, MarkDeliveredTx, Unpaid;
    if ManualCommitTx(db, o, text, now).Ok? {
      var delivered := MarkDeliveredTx(MarkDeliveringTx(db, o).value, o, Trim(text)).value;
      ManualHops(db, h, o, Trim(text));
      SubscribeKeeps(delivered, h, o, now);
      GrowsTransitive(db, delivered, ManualCommitTx(db, o, text, now).value, h, h);
    }
  }

  lemma SubsKeeps(db: Db, h: Past, subs': seq<Subscription>)
    requires DbInv(db, h) && |subs'| == |db.subs|
    requires forall i: Id | i < |db.subs| :: SubGrows(db.subs[i], subs'[i])
    ensures DbInv(db.(subs := subs'), h) && Grows(db, db.(subs := subs'), h)
  {
    hide MoneyInv, PromoInv, GoodsInv, Sound;
    PeriodFrame(db, db.(subs := subs'));
  }

  lemma SweepKeeps(db: Db, h: Past, now: int)
    requires DbInv(db, h)
    ensures DbInv(ExpireSubscriptionsTx(db, now), h) && Grows(db, ExpireSubscriptionsTx(db, now), h)
  {
    hide DbInv, Grows;
    SubsKeeps(db, h, ExpireSubscriptionsTx(db, now).subs);
  }

  lemma BookKeeps(db: Db, h: Past, c: Call)
    requires DbInv(db, h) && c.entry.key.OtherKey? && OfOthers(db.orders, c.entry)
    ensures var db' := db.(ledger := Post(db.ledger, c).ledger);
            DbInv(db', h) && Grows(db, db', h)
  {
    hide MoneyInv, PromoInv, GoodsInv, Sound, OfOthers;
    var db' := db.(ledger := Post(db.ledger, c).ledger);
    MoneyOthers(db.orders, db.ledger, c, h);
    PostSoundExtends(db.ledger, c);
    PeriodFrame(db, db');
  }

  lemma RenewMoney(db: Db, h: Past, seen: Snapshot, now: int)
    requires DbInv(db, h) && RenewTx(db, seen, now).Ok?
    ensures var db' := RenewTx(db, seen, now).value;
            MoneyInv(db'.orders, db'.ledger, Railed(h, {|db.orders|})) && Sound(db'.ledger) && Extends(db.ledger, db'.ledger)
  {
    hide GoodsInv, PromoInv, PeriodInv, Sound;
    var db', c, o := RenewTx(db, seen, now).value, Debit(RenewalEntry(seen)), |db.orders|;
    PostAdds(db.ledger, c);
    PostSoundExtends(db.ledger, c);
    MoneyBook(db.orders, db.ledger, db'.ledger, h, seen.row.user);
    assert MoneyInv(db.orders, db'.ledger, Railed(h, {o}));
    MoneyAppend(db.orders, RenewalOrder(seen, now), db'.ledger, Railed(h, {o}));
  }

  /** What a renewal's transaction leaves of periods, orders and records, taken apart. */
  lemma RenewParts(db: Db, seen: Snapshot, now: int)
    requires RenewTx(db, seen, now).Ok? && seen.sub < |db.subs| && SubGrows(seen.row, db.subs[seen.sub])
    ensures var db', o := RenewTx(db, seen, now).value, |db.orders|;
            var paid := RenewalOf(seen.sub, seen.row.expiresAt);
            && FindByKey(db.orders, RenewalOrderOf(seen.sub, seen.row.expiresAt)).None?
            && db'.orders == db.orders + [RenewalOrder(seen, now)]
            && |db'.subs| == |db.subs| + 1 && (forall i: Id | i < |db.subs| :: SubGrows(db.subs[i], db'.subs[i]))
            && db'.subs[|db.subs|].order == o && Fits(db'.subs[|db.subs|], db'.orders[o])
            && Continues(db'.subs[seen.sub], db'.subs[|db.subs|], db'.orders[o])
            && Extends(db.ledger, db'.ledger)
            && (forall k: Key | k != paid :: k in db'.ledger.records <==> k in db.ledger.records)
  {
    hide SubscriptionOf, FindByKey, BalanceOf;
  }

  lemma RenewDebit(db: Db, seen: Snapshot, now: int)
    requires PeriodInv(db) && RenewTx(db, seen, now).Ok?
    ensures var db', paid := RenewTx(db, seen, now).value, RenewalOf(seen.sub, seen.row.expiresAt);
            && paid !in db.ledger.records
            && (paid in db'.ledger.records <==> seen.priceCents > 0)
            && (seen.priceCents > 0 ==> Debited(db'.ledger.records[paid], seen.priceCents))
  {
    hide SubscriptionOf, FindByKey, BalanceOf;
  }

  lemma RenewFits(db: Db, seen: Snapshot, now: int)
    requires PeriodInv(db) && RenewTx(db, seen, now).Ok? && seen.sub < |db.subs| && SubGrows(seen.row, db.subs[seen.sub])
    ensures var db' := RenewTx(db, seen, now).value;
            && (forall i: Id | i < |db'.subs| :: db'.subs[i].order < |db'.orders| && Fits(db'.subs[i], db'.orders[db'.subs[i].order]))
            && (forall i: Id, j: Id | i < |db'.subs| && j < |db'.subs| && db'.subs[i].order == db'.subs[j].order :: i == j)
  {
    hide SubscriptionOf, FindByKey, BalanceOf, RenewTx, Continues, RenewalDone;
    RenewParts(db, seen, now);
    var db' := RenewTx(db, seen, now).value;
    forall i: Id | i < |db.subs| ensures db'.subs[i].order < |db.orders| && Fits(db'.subs[i], db'.orders[db'.subs[i].order]) {
      assert SubGrows(db.subs[i], db'.subs[i]) && Fits(db.subs[i], db.orders[db.subs[i].order]);
    }
    hide Fits;
  }

  lemma RenewDone(db: Db, seen: Snapshot, now: int)
    requires PeriodInv(db) && RenewTx(db, seen, now).Ok? && seen.sub < |db.subs| && SubGrows(seen.row, db.subs[seen.sub])
    ensures var db' := RenewTx(db, seen, now).value;
            forall x: Id | x < |db'.orders| :: RenewalDone(db', x)
  {
    hide SubscriptionOf, FindByKey, BalanceOf, RenewTx, Continues, Fits;
    RenewParts(db, seen, now);
    RenewDebit(db, seen, now);
    RenewFits(db, seen, now);
    var db', o := RenewTx(db, seen, now).value, |db.orders|;
    forall x: Id | x < |db'.orders| ensures RenewalDone(db', x) {
      if x < o {
        assert RenewalDone(db, x) && db.orders[x] in db.orders;
        hide RenewalDone;
        RenewalStays(db, db', x);
      } else {
        assert db'.subs[|db.subs|] in db'.subs;
      }
    }
  }

  lemma RenewPeriods(db: Db, seen: Snapshot, now: int)
    requires PeriodInv(db) && RenewTx(db, seen, now).Ok? && seen.sub < |db.subs| && SubGrows(seen.row, db.subs[seen.sub])
    ensures PeriodInv(RenewTx(db, seen, now).value)
  {
    hide SubscriptionOf, FindByKey, BalanceOf, RenewTx, Continues, Fits, RenewalDone, SubGrows;
    RenewParts(db, seen, now);
    RenewDone(db, seen, now);
    RenewFits(db, seen, now);
    var db', o := RenewTx(db, seen, now).value, |db.orders|;
    forall i: Id | i < |db.orders| ensures db'.orders[i].key != db'.orders[o].key {
      assert db.orders[i] in db.orders;
    }
    forall k | k in db'.ledger.records && k.RenewalOf?
      ensures FindByKey(db'.orders, RenewalOrderOf(k.sub, k.expiresAt)).Some?
    {
      if k in db.ledger.records {
        var i := FindByKey(db.orders, RenewalOrderOf(k.sub, k.expiresAt)).value;
        assert db'.orders[i] in db'.orders && db'.orders[i].key == RenewalOrderOf(k.sub, k.expiresAt);
      } else {
        assert db'.orders[o] in db'.orders;
      }
    }
  }

  lemma RenewGoods(orders: seq<Order>, order: Order, stock: seq<StockItem>, promos: seq<Promo>, h: Past)
    requires GoodsInv(orders, stock, h) && PromoInv(orders, promos, h)
    requires order.promo.None? && order.payload.None? && order.status.Paid? && order.paidAt.Some?
    ensures GoodsInv(orders + [order], stock, h) && PromoInv(orders + [order], promos, h)
  {
    var orders' := orders + [order];
    forall p: Id | p < |promos| ensures PromoOf(orders', promos[p], h, p) {
      SumAppend(orders, order, HolderShare(p));
      assert PromoOf(orders, promos[p], h, p);
      if NoneRegained(orders', h, p) {
        forall o: Id | o < |orders| && orders[o].promo == Some(p) ensures o !in h.regained {
          assert orders'[o] == orders[o];
        }
      }
    }
  }

  lemma RenewKeeps(db: Db, h: Past, seen: Snapshot, now: int)
    requires DbInv(db, h) && seen.sub < |db.subs| && SubGrows(seen.row, db.subs[seen.sub])
    ensures var tx := RenewTx(db, seen, now);
            tx.Ok? ==> DbInv(tx.value, Railed(h, {|db.orders|})) && Grows(db, tx.value, Railed(h, {|db.orders|}))
  {
    hide MoneyInv, GoodsInv, PromoInv, PeriodInv, Sound;
    var tx := RenewTx(db, seen, now);
    if tx.Ok? {
      RenewMoney(db, h, seen, now);
      RenewPeriods(db, seen, now);
      RenewParts(db, seen, now);
      RenewGoods(db.orders, RenewalOrder(seen, now), db.stock, db.promos, h);
      assert tx.value.stock == db.stock && tx.value.promos == db.promos;
      hide RenewTx, Extends, Continues;
      Wider(db.orders + [RenewalOrder(seen, now)], db.stock, db.promos, h, Railed(h, {|db.orders|}));
    }
  }

  /** Goods and promos do not depend on what the rails did. */
  lemma Wider(orders: seq<Order>, stock: seq<StockItem>, promos: seq<Promo>, h: Past, h': Past)
    requires GoodsInv(orders, stock, h) && PromoInv(orders, promos, h) && Remembers(h, h')
    ensures GoodsInv(orders, stock, h') && PromoInv(orders, promos, h')
  {
    forall p: Id | p < |promos| ensures PromoOf(orders, promos[p], h', p) {
      assert PromoOf(orders, promos[p], h, p);
      if NoneRegained(orders, h', p) { assert NoneRegained(orders, h, p); }
    }
  }

  // ---------------------------------------------------------------- every step, every run

  lemma WorkGrows(s: Shop, s': Shop, w: Work)
    requires WorkOk(s, w) && Grows(s.db, s'.db, s'.past)
    ensures WorkOk(s', w)
  {
    if w.Renewing? {
      assert SubGrows(s.db.subs[w.seen.sub], s'.db.subs[w.seen.sub]);
    } else {
      assert OrderGrows(s.db.orders[w.order], s'.db.orders[w.order]);
    }
  }

  /** What a process steps to. */
  lemma WorkStep(s: Shop, s': Shop, p: nat)
    requires WorkInv(s) && Grows(s.db, s'.db, s'.past)
    requires s'.work == s.work || s'.work == s.work - {p} || (p in s'.work && s'.work == s.work[p := s'.work[p]])
    requires p in s'.work ==> WorkOk(s', s'.work[p])
    ensures WorkInv(s')
  {
    hide Grows, WorkOk;
    forall q | q in s'.work ensures WorkOk(s', s'.work[q]) {
      if q != p {
        WorkGrows(s, s', s.work[q]);
      }
    }
  }

  lemma GrowsSelf(db: Db, h: Past)
    ensures Grows(db, db, h)
  {
  }

  lemma GrowsTransitive(a: Db, b: Db, c: Db, h: Past, h': Past)
    requires Grows(a, b, h) && Grows(b, c, h') && Remembers(h, h')
    ensures Grows(a, c, h')
  {
    forall o: Id | o < |a.orders| ensures Follows(a.orders[o], c.orders[o], o, h') {
      assert Follows(a.orders[o], b.orders[o], o, h) && Follows(b.orders[o], c.orders[o], o, h');
    }
    forall i: Id | i < |a.subs| ensures SubGrows(a.subs[i], c.subs[i]) {
      assert SubGrows(a.subs[i], b.subs[i]) && SubGrows(b.subs[i], c.subs[i]);
    }
    hide Follows, SubGrows;
  }

  /** Books that hold under some memory hold under a longer one. */
  lemma LongerMemory(db: Db, h: Past, h': Past)
    requires DbInv(db, h) && Remembers(h, h')
    ensures DbInv(db, h')
  {
    forall o: Id | o < |db.orders| && o !in h'.spoiled ensures MoneyOf(db.orders[o], db.ledger, o, o in h'.railed) {
      assert MoneyOf(db.orders[o], db.ledger, o, o in h.railed);
    }
    Wider(db.orders, db.stock, db.promos, h, h');
    hide GoodsInv, PromoInv, PeriodInv, Sound, MoneyOf;
  }

  /** The update of `markDelivering` or `markDelivered`, whatever it lands on: the books of the order are
      kept, or it is remembered what the write found. */
  lemma WriteKeeps(s: Shop, o: Id, order': Order)
    requires DbInv(s.db, s.past) && o < |s.db.orders|
    requires var order := s.db.orders[o];
             && !Unpaid(order.status)
             && (order' == order.(status := Delivering)
                 || (order'.payload.Some? && !order.status.Paid? && order' == order.(status := Delivered, payload := order'.payload)))
    ensures var s' := Wrote(s, o, order');
            DbInv(s'.db, s'.past) && Grows(s.db, s'.db, s'.past)
  {
    var s' := Wrote(s, o, order');
    assert DealOf(s.db.orders[o], o in s.past.reopened);
    assert Follows(s.db.orders[o], order', o, s'.past) && DealOf(order', o in s'.past.reopened);
    hide DbInv, Grows, Follows, DealOf;
    LongerMemory(s.db, s.past, s'.past);
    HopKeeps(s.db, s'.past, o, order');
  }

  lemma EditPromoKeeps(s: Shop, p: Id, saved: Promo)
    requires DbInv(s.db, s.past) && p < |s.db.promos|
    ensures var s' := EditedPromo(s, p, saved);
            DbInv(s'.db, s'.past) && Grows(s.db, s'.db, s'.past) && Remembers(s.past, s'.past)
  {
    var s' := EditedPromo(s, p, saved);
    LongerMemory(s.db, s.past, s'.past);
    hide MoneyInv, GoodsInv, Sound;
    forall q: Id | q < |s'.db.promos| ensures PromoOf(s'.db.orders, s'.db.promos[q], s'.past, q) {
      assert PromoOf(s.db.orders, s.db.promos[q], s.past, q);
      assert NoneRegained(s'.db.orders, s'.past, q) == NoneRegained(s.db.orders, s.past, q);
    }
    PeriodFrame(s.db, s'.db);
  }

  lemma DispatchBooks(s: Shop, p: nat, o: Id, e: Event)
    requires DbInv(s.db, s.past) && o < |s.db.orders| && !Unpaid(StatusOf(s, o))
    ensures var s' := Dispatch(s, p, o, e);
            s'.past == s.past && DbInv(s'.db, s.past) && Grows(s.db, s'.db, s.past)
  {
    hide DbInv, Grows, DeliverFromPoolTx, FailAndRefundTx;
    GrowsSelf(s.db, s.past);
    PoolKeeps(s.db, s.past, o);
    FailKeeps(s.db, s.past, o);
  }

  lemma ProceedBooks(s: Shop, p: nat, e: Event)
    requires Inv(s) && At(s, p)
    ensures var s' := Proceed(s, p, s.work[p], e);
            DbInv(s'.db, s'.past) && Grows(s.db, s'.db, s'.past) && Remembers(s.past, s'.past)
  {
    hide DbInv, Grows, FailAndRefundTx, RenewTx, CreateSubscriptionTx, Wrote, Dispatch;
    assert DbInv(s.db, s.past) && WorkOk(s, s.work[p]);
    GrowsSelf(s.db, s.past);
    match s.work[p] {
      case Opened(o) =>
      case WritingDelivering(o) =>
        WriteKeeps(s, o, s.db.orders[o].(status := Delivering));
        WroteRemembers(s, o, s.db.orders[o].(status := Delivering));
      case Dispatching(o) =>
        DispatchBooks(s, p, o, e);
      case WritingDelivered(o, payload) =>
        WriteKeeps(s, o, s.db.orders[o].(status := Delivered, payload := Some(payload)));
        WroteRemembers(s, o, s.db.orders[o].(status := Delivered, payload := Some(payload)));
      case Settling(o) =>
        FailKeeps(s.db, s.past, o);
      case Subscribing(o) =>
        if e.Subscribe? { SubscribeKeeps(s.db, s.past, o, e.now); }
      case Renewing(seen) =>
        if e.Renew? { RenewKeeps(s.db, s.past, seen, e.now); }
    }
  }

  lemma WroteRemembers(s: Shop, o: Id, order': Order)
    requires o < |s.db.orders|
    ensures Remembers(s.past, Wrote(s, o, order').past)
  {
  }

  /** A process goes on with the order it has, and has `markDelivered` approved only on a DELIVERING one. */
  lemma ProceedGoesOn(s: Shop, p: nat, e: Event)
    requires At(s, p) && p in s.work
    ensures var w, s' := s.work[p], Proceed(s, p, s.work[p], e);
            && (s'.work == s.work || s'.work == s.work - {p} || (p in s'.work && s'.work == s.work[p := s'.work[p]]))
            && (p in s'.work && s'.work[p] != w ==>
                  && !w.Renewing? && !s'.work[p].Renewing? && s'.work[p].order == w.order
                  && (s'.work[p].WritingDelivered? ==> s'.db == s.db && StatusOf(s, w.order).Delivering?))
  {
    hide Settled, Subscribed, RenewTx, DeliverFromPoolTx, FailAndRefundTx, Marked;
  }

  lemma ProceedKeeps(s: Shop, p: nat, e: Event)
    requires Inv(s) && At(s, p)
    ensures var s' := Proceed(s, p, s.work[p], e);
            Inv(s') && Grows(s.db, s'.db, s'.past) && Remembers(s.past, s'.past)
  {
    var s' := Proceed(s, p, s.work[p], e);
    ProceedBooks(s, p, e);
    ProceedGoesOn(s, p, e);
    hide DbInv, Grows, Proceed;
    assert WorkOk(s, s.work[p]);
    WorkGrows(s, s', s.work[p]);
    WorkStep(s, s', p);
  }

  lemma EditedGoods(db: Db, h: Past, e: Event)
    requires GoodsInv(db.orders, db.stock, h)
    ensures var db' := Edited(db, e);
            && GoodsInv(db.orders, db'.stock, h) && |db.stock| <= |db'.stock|
            && forall i: Id | i < |db.stock| && db.stock[i].status.Sold? :: db'.stock[i] == db.stock[i]
  {
    hide DealOf;
  }

  lemma EditedPromos(db: Db, h: Past, e: Event)
    requires PromoInv(db.orders, db.promos, h)
    ensures PromoInv(db.orders, Edited(db, e).promos, h)
  {
    var promos' := Edited(db, e).promos;
    if e.AddPromo? {
      SumZero(db.orders, HolderShare(|db.promos|));
    }
    forall p: Id | p < |promos'| ensures PromoOf(db.orders, promos'[p], h, p) {
      if p < |db.promos| { assert PromoOf(db.orders, db.promos[p], h, p); }
    }
  }

  /** Orders, ledger and periods are as they were. */
  lemma EditedKeeps(db: Db, h: Past, e: Event)
    requires DbInv(db, h)
    ensures DbInv(Edited(db, e), h) && Grows(db, Edited(db, e), h)
  {
    hide GoodsInv, PromoInv, MoneyInv, Sound, OwnedItem, Fits, RenewalDone;
    EditedGoods(db, h, e);
    EditedPromos(db, h, e);
    var db' := Edited(db, e);
    assert db' == db.(stock := db'.stock, promos := db'.promos, plans := db'.plans);
    hide Edited;
    PeriodFrame(db, db');
  }

  lemma TransactedKeeps(db: Db, h: Past, e: Event)
    requires DbInv(db, h)
    ensures DbInv(Transacted(db, e), h) && Grows(db, Transacted(db, e), h)
  {
    hide DbInv, Grows, CreateOrderTx, PayFromBalanceTx, ExpireOrderTx, RefundOrderTx, ManualCommitTx, Post, Edited,
         ExpireSubscriptionsTx;
    GrowsSelf(db, h);
    match e {
      case Create(input, now) => if input.key.ClientKey? { CreateKeeps(db, h, input, now); }
      case Pay(o, now) => PayKeeps(db, h, o, now);
      case Expire(o) => ExpireKeeps(db, h, o);
      case RefundIt(o) => RefundKeeps(db, h, o);
      case Manual(o, text, now) => ManualKeeps(db, h, o, text, now);
      case SweepSubscriptions(now) => SweepKeeps(db, h, now);
      case CancelSubscription(i) => SubsKeeps(db, h, Transacted(db, e).subs);
      case Book(call) => if call.entry.key.OtherKey? && OfOthers(db.orders, call.entry) { BookKeeps(db, h, call); }
      case _ => EditedKeeps(db, h, e);
    }
  }

  lemma RailMoney(db: Db, db': Db, h: Past)
    requires DbInv(db, h) && RailMoves(db, db')
    ensures MoneyInv(db'.orders, db'.ledger, Railed(h, Touched(db, db')))
  {
    var railed := h.railed + Touched(db, db');
    forall o: Id | o < |db.orders| && o !in h.spoiled ensures MoneyOf(db'.orders[o], db'.ledger, o, o in railed) {
      assert MoneyOf(db.orders[o], db.ledger, o, o in h.railed);
      SumGrows(db.ledger.rows, db'.ledger.rows, RefundShare(o));
      if o !in Touched(db, db') {
        SumGrows(db.ledger.rows, db'.ledger.rows, NetShare(db.orders[o].user, o));
      }
    }
    forall o: Id | o < |db.orders| ensures db'.orders[o].user == db.orders[o].user {
      assert db'.orders[o] == db.orders[o] || PaidByRail(db.orders[o], db'.orders[o]);
    }
    forall r | r in db'.ledger.rows ensures BuyersRow(db'.orders, r) {
      var n: nat :| n < |db'.ledger.rows| && db'.ledger.rows[n] == r;
      if n < |db.ledger.rows| { assert r in db.ledger.rows && BuyersRow(db.orders, r); }
    }
  }

  lemma RailFollows(db: Db, db': Db, h: Past)
    requires RailMoves(db, db') && GoodsInv(db.orders, db.stock, h)
    ensures GoodsInv(db'.orders, db'.stock, h)
    ensures forall o: Id | o < |db.orders| :: Follows(db.orders[o], db'.orders[o], o, h)
  {
    hide Sound;
    forall o: Id | o < |db.orders|
      ensures DealOf(db'.orders[o], o in h.reopened) && Follows(db.orders[o], db'.orders[o], o, h)
    {
      assert DealOf(db.orders[o], o in h.reopened);
      assert db'.orders[o] == db.orders[o] || PaidByRail(db.orders[o], db'.orders[o]);
    }
  }

  lemma RailPromos(db: Db, db': Db, h: Past)
    requires RailMoves(db, db') && PromoInv(db.orders, db.promos, h)
    ensures PromoInv(db'.orders, db'.promos, h)
  {
    hide Sound;
    forall o: Id | o < |db.orders| ensures db'.orders[o].promo == db.orders[o].promo {
      assert db'.orders[o] == db.orders[o] || PaidByRail(db.orders[o], db'.orders[o]);
    }
    forall p: Id | p < |db.promos| ensures PromoOf(db'.orders, db'.promos[p], h, p) {
      SumPointwise(db.orders, db'.orders, HolderShare(p), HolderShare(p));
      assert PromoOf(db.orders, db.promos[p], h, p);
      if NoneRegained(db'.orders, h, p) {
        forall o: Id | o < |db.orders| && db.orders[o].promo == Some(p) ensures o !in h.regained {
          assert db'.orders[o].promo == Some(p);
        }
      }
    }
  }

  lemma RailKeeps(db: Db, db': Db, h: Past)
    requires DbInv(db, h) && RailMoves(db, db')
    ensures var h' := Railed(h, Touched(db, db'));
            DbInv(db', h') && Grows(db, db', h')
  {
    RailMoney(db, db', h);
    RailFollows(db, db', h);
    RailPromos(db, db', h);
    hide MoneyInv, Sound, GoodsInv, PromoInv, Touched;
    var h' := Railed(h, Touched(db, db'));
    Wider(db'.orders, db'.stock, db'.promos, h, h');
    PeriodFrame(db, db');
  }

  lemma RailStep(s: Shop, after: Db)
    requires Inv(s) && RailMoves(s.db, after)
    ensures var s' := Shop(after, s.work, Railed(s.past, Touched(s.db, after)));
            Inv(s') && Grows(s.db, after, s'.past) && Remembers(s.past, s'.past)
  {
    assert DbInv(s.db, s.past) && WorkInv(s);
    RailKeeps(s.db, after, s.past);
    var s' := Shop(after, s.work, Railed(s.past, Touched(s.db, after)));
    hide DbInv, Grows, RailMoves, Touched;
    forall q | q in s.work ensures WorkOk(s', s.work[q]) {
      WorkGrows(s, s', s.work[q]);
    }
  }

  /** A process opens its work: it finds its order paid, or reads an ACTIVE period. */
  lemma OpenKeeps(s: Shop, e: Event)
    requires Inv(s) && (e.Open? || e.ManualAgain? || e.ReadSubscription? || e.Crash?)
    ensures Inv(Apply(s, e)) && Apply(s, e).db == s.db && Apply(s, e).past == s.past
  {
    hide DbInv, Proceed, Transacted, RailMoves, Touched, EditedPromo, SubGrows, TakeSnapshot;
    if e.ReadSubscription? { SnapshotOk(s.db, e.sub); }
    var s' := Apply(s, e);
    forall q | q in s'.work ensures WorkOk(s', s'.work[q]) {
      if q in s.work { assert WorkOk(s, s.work[q]); }
    }
  }

  lemma SnapshotOk(db: Db, i: Id)
    ensures TakeSnapshot(db, i).Ok? ==>
              var seen := TakeSnapshot(db, i).value;
              seen.sub < |db.subs| && SubGrows(seen.row, db.subs[seen.sub])
  {
  }

  lemma WholeKeeps(s: Shop, e: Event)
    requires Inv(s)
    ensures var s' := s.(db := Transacted(s.db, e));
            Inv(s') && Grows(s.db, s'.db, s.past)
  {
    assert DbInv(s.db, s.past) && WorkInv(s);
    hide DbInv, Grows, Transacted, WorkOk;
    TransactedKeeps(s.db, s.past, e);
    var s' := s.(db := Transacted(s.db, e));
    forall q | q in s'.work ensures WorkOk(s', s'.work[q]) {
      WorkGrows(s, s', s.work[q]);
    }
  }

  lemma PromoEditKeeps(s: Shop, e: Event)
    requires Inv(s) && e.EditPromo? && e.id < |s.db.promos|
    ensures var s' := EditedPromo(s, e.id, e.saved);
            Inv(s') && Grows(s.db, s'.db, s'.past) && Remembers(s.past, s'.past)
  {
    assert DbInv(s.db, s.past);
    EditPromoKeeps(s, e.id, e.saved);
    hide DbInv, Grows;
    WorkStep(s, EditedPromo(s, e.id, e.saved), 0);
  }

  lemma StepKeeps(s: Shop, e: Event)
    requires Inv(s)
    ensures Inv(Apply(s, e)) && Grows(s.db, Apply(s, e).db, Apply(s, e).past) && Remembers(s.past, Apply(s, e).past)
  {
    hide Inv, Grows, Proceed, Transacted, RailMoves, Touched, EditedPromo, TakeSnapshot;
    GrowsSelf(s.db, s.past);
    if e.Rail? {
      if RailMoves(s.db, e.after) { RailStep(s, e.after); }
    } else if e.EditPromo? {
      if e.id < |s.db.promos| { PromoEditKeeps(s, e); }
    } else if e.Open? || e.ManualAgain? || e.ReadSubscription? || e.Crash? {
      OpenKeeps(s, e);
    } else if UnderWay(e) {
      if At(s, e.process) { ProceedKeeps(s, e.process, e); }
    } else {
      WholeKeeps(s, e);
    }
  }

  lemma {:induction false} RunKeeps(plans: seq<Plan>, run: seq<Shop>, events: seq<Event>, n: nat)
    requires IsRun(plans, run, events) && n < |run|
    ensures Inv(run[n])
  {
    if n == 0 {
      EmptyInv(plans);
    } else {
      RunKeeps(plans, run, events, n - 1);
      hide Inv, Apply;
      assert run[n] == Apply(run[n - 1], events[n - 1]);
      StepKeeps(run[n - 1], events[n - 1]);
    }
  }

  lemma {:induction false} RunGrows(plans: seq<Plan>, run: seq<Shop>, events: seq<Event>, n: nat, m: nat)
    requires IsRun(plans, run, events) && n <= m < |run|
    ensures Grows(run[n].db, run[m].db, run[m].past)
    decreases m
  {
    hide Inv, Grows, Apply, Remembers;
    if n == m {
      GrowsSelf(run[n].db, run[n].past);
    } else {
      RunGrows(plans, run, events, n, m - 1);
      RunKeeps(plans, run, events, m - 1);
      assert run[m] == Apply(run[m - 1], events[m - 1]);
      StepKeeps(run[m - 1], events[m - 1]);
      GrowsTransitive(run[n].db, run[m - 1].db, run[m].db, run[m - 1].past, run[m].past);
    }
  }

  lemma EmptyInv(plans: seq<Plan>)
    ensures Inv(Empty(plans))
  {
    EmptySound();
  }
}
