/** packages/core/src/orders.ts, and the payment transaction of apps/bot/src/domain/orders.ts.

    `XTx` is the transaction X as a function: `Err` is a rollback. The method X updates the
    tables in the order of the source and is proved to be that function. */
module Orders {
  import opened Schema
  import opened Sums
  import opened LedgerBook
  import opened Pricing

  function Allowed(from: OrderStatus): set<OrderStatus> {
    match from
    case Pending => {OrderStatus.Paid, OrderStatus.Expired, OrderStatus.Failed}
    case Paid => {Delivering, OrderStatus.Failed, Refunded}
    case Delivering => {Delivered, OrderStatus.Failed, Refunded}
    case Delivered => {Refunded}
    case Failed => {Refunded}
    case Expired => {}
    case Refunded => {}
  }

  predicate MayMove(from: OrderStatus, to: OrderStatus) {
    to in Allowed(from)
  }

  datatype OrderInput = OrderInput(
    user: Id,
    plan: Id,
    qty: int,
    promo: Option<Id>,
    key: OrderKey,
    expiresInMs: int)

  const DEFAULT_ORDER_EXPIRY_MS := 20 * 60 * 1000

  /** The order and the tables after `createOrder`. */
  datatype Created = Created(db: Db, order: Id)

  // ---------------------------------------------------------------- single statements

  function FindByKey(orders: seq<Order>, key: OrderKey): (r: Option<Id>)
    ensures r.Some? ==> r.value < |orders| && orders[r.value].key == key
    ensures r.None? ==> forall o | o in orders :: o.key != key
  {
    if orders == [] then None
    else if orders[|orders| - 1].key == key then Some(|orders| - 1)
    else FindByKey(orders[..|orders| - 1], key)
  }

  function WithStatus(db: Db, o: Id, status: OrderStatus): Db
    requires o < |db.orders|
  {
    db.(orders := db.orders[o := db.orders[o].(status := status)])
  }

  function ReleaseItem(item: StockItem, o: Id): StockItem {
    if item.order == Some(o) && item.status.Reserved? then item.(status := Available, order := None) else item
  }

  function ReleaseReserved(stock: seq<StockItem>, o: Id): seq<StockItem> {
    seq(|stock|, i requires 0 <= i < |stock| => ReleaseItem(stock[i], o))
  }

  function ClaimPromo(promos: seq<Promo>, p: Id): Option<seq<Promo>>
    requires p < |promos|
  {
    var promo := promos[p];
    if promo.isActive && (promo.maxUses.Some? ==> promo.usedCount < promo.maxUses.value)
    then Some(promos[p := promo.(usedCount := promo.usedCount + 1)])
    else None
  }

  function ReleasePromo(promos: seq<Promo>, p: Option<Id>): seq<Promo> {
    if p.Some? && p.value < |promos| then
      var promo := promos[p.value];
      promos[p.value := promo.(usedCount := if promo.usedCount - 1 > 0 then promo.usedCount - 1 else 0)]
    else promos
  }

  /** A REFUND row's share in what order `o` got back. */
  function RefundShare(o: Id): Row -> int {
    (r: Row) => if r.order == Some(o) && r.kind.Refund? then r.amountCents else 0
  }

  function RefundTotal(rows: seq<Row>, o: Id): int {
    Sum(rows, RefundShare(o))
  }

  function PurchaseEntry(order: Order, o: Id): Entry {
    Entry(order.user, order.amountCents, LedgerType.Purchase, Some(o), None, PurchaseOf(o))
  }

  function RefundEntry(order: Order, o: Id, key: Key): Entry {
    Entry(order.user, order.amountCents, LedgerType.Refund, Some(o), None, key)
  }

  // ---------------------------------------------------------------- transactions

  function CreateOrderTx(db: Db, input: OrderInput, now: int): Result<Created> {
    var existing := FindByKey(db.orders, input.key);
    if existing.Some? then Ok(Created(db, existing.value))
    else if input.plan >= |db.plans| || !db.plans[input.plan].isActive then Err(StockUnavailable)
    else if input.promo.Some? && input.promo.value >= |db.promos| then Err(PromoInvalid)
    else
      var promo := if input.promo.Some? then Some(db.promos[input.promo.value]) else None;
      var pricing :- ComputeOrderTotal(db.plans[input.plan], input.plan, input.qty, promo, now);
      var promos := if input.promo.Some? then ClaimPromo(db.promos, input.promo.value) else Some(db.promos);
      if promos.None? then Err(PromoInvalid)
      else
        var order := Order(input.user, input.plan, input.qty, pricing.totalCents, OrderStatus.Pending, input.promo, None,
                           input.key, now, None, Some(now + input.expiresInMs), None, None);
        Ok(Created(db.(promos := promos.value, orders := db.orders + [order]), |db.orders|))
  }

  function MarkPaidTx(db: Db, o: Id, externalId: Option<Txid>, now: int): Result<Db> {
    if o >= |db.orders| then Err(NotFound)
    else
      var order := db.orders[o];
      if order.status.Paid? || order.status.Delivering? || order.status.Delivered? then Ok(db)
      else if !MayMove(order.status, OrderStatus.Paid) then Err(OrderState)
      else Ok(db.(orders := db.orders[o := order.(
                    status := OrderStatus.Paid,
                    paidAt := if order.paidAt.Some? then order.paidAt else Some(now),
                    externalId := if externalId.Some? then externalId else order.externalId)]))
  }

  function MarkDeliveringTx(db: Db, o: Id): Result<Db> {
    if o >= |db.orders| then Err(NotFound)
    else if db.orders[o].status.Delivering? then Ok(db)
    else if !MayMove(db.orders[o].status, Delivering) then Err(OrderState)
    else Ok(WithStatus(db, o, Delivering))
  }

  function WithPayload(db: Db, o: Id, payload: string): Db
    requires o < |db.orders|
  {
    db.(orders := db.orders[o := db.orders[o].(status := Delivered, payload := Some(payload))])
  }

  function MarkDeliveredTx(db: Db, o: Id, payload: string): Result<Db> {
    if o >= |db.orders| then Err(NotFound)
    else if !MayMove(db.orders[o].status, Delivered) then Err(OrderState)
    else Ok(WithPayload(db, o, payload))
  }

  function MarkFailedTx(db: Db, o: Id): Result<Db> {
    if o >= |db.orders| then Err(NotFound)
    else if !MayMove(db.orders[o].status, OrderStatus.Failed) then Err(OrderState)
    else Ok(WithStatus(db.(stock := ReleaseReserved(db.stock, o)), o, OrderStatus.Failed))
  }

  function ExpireOrderTx(db: Db, o: Id): Result<Db> {
    if o >= |db.orders| then Err(NotFound)
    else if !MayMove(db.orders[o].status, OrderStatus.Expired) then Err(OrderState)
    else
      var released := db.(stock := ReleaseReserved(db.stock, o), promos := ReleasePromo(db.promos, db.orders[o].promo));
      Ok(WithStatus(released, o, OrderStatus.Expired))
  }

  function RefundOrderTx(db: Db, o: Id): Result<Db> {
    if o >= |db.orders| then Err(NotFound)
    else
      var order := db.orders[o];
      if !MayMove(order.status, Refunded) then Err(OrderState)
      else
        var ledger :- if order.amountCents > 0 && RefundTotal(db.ledger.rows, o) == 0
                      then Booked(db.ledger, Credit(RefundEntry(order, o, RefundOf(o))))
                      else Ok(db.ledger);
        Ok(WithStatus(db.(stock := ReleaseReserved(db.stock, o),
                          promos := ReleasePromo(db.promos, order.promo),
                          ledger := ledger), o, Refunded))
  }

  /** `payOrderFromBalance`: the debit and the status flip are one transaction. */
  function PayFromBalanceTx(db: Db, o: Id, now: int): Result<Db> {
    if o >= |db.orders| then Err(NotFound)
    else
      var order := db.orders[o];
      var ledger :- if order.amountCents > 0 then Booked(db.ledger, Debit(PurchaseEntry(order, o))) else Ok(db.ledger);
      MarkPaidTx(db.(ledger := ledger), o, None, now)
  }

  /** `failAndRefund`, and what `settleFailedDelivery` does to an order still in flight. */
  function FailAndRefundTx(db: Db, o: Id): Result<Db> {
    var failed :- MarkFailedTx(db, o);
    var order := db.orders[o];
    if order.amountCents == 0 then Ok(failed)
    else
      var ledger :- Booked(db.ledger, Credit(RefundEntry(order, o, FailureRefundOf(o))));
      Ok(failed.(ledger := ledger))
  }

  /** The tables after a transaction that may have rolled back. */
  function Committed(db: Db, tx: Result<Db>): Db {
    if tx.Ok? then tx.value else db
  }

  // ---------------------------------------------------------------- the same, in place

  /** What a transaction method promises: it committed exactly `tx`, or changed nothing and threw. */
  predicate Commits(before: Db, after: Db, r: Result<()>, tx: Result<Db>) {
    if tx.Ok? then r.Ok? && after == tx.value else r == Err(tx.error) && after == before
  }

  method CreateOrder(db: Database, input: OrderInput, now: int) returns (r: Result<Id>)
    modifies db
    ensures var tx := CreateOrderTx(old(db.View()), input, now);
            if tx.Ok? then r == Ok(tx.value.order) && db.View() == tx.value.db
            else r == Err(tx.error) && db.View() == old(db.View())
  {
    var existing := FindByKey(db.orders, input.key);
    if existing.Some? {
      return Ok(existing.value);
    }
    if input.plan >= |db.plans| || !db.plans[input.plan].isActive {
      return Err(StockUnavailable);
    }
    if input.promo.Some? && input.promo.value >= |db.promos| {
      return Err(PromoInvalid);
    }
    var promo := None;
    if input.promo.Some? {
      promo := Some(db.promos[input.promo.value]);
    }
    var pricing := ComputeOrderTotal(db.plans[input.plan], input.plan, input.qty, promo, now);
    if pricing.Err? {
      return Err(pricing.error);
    }
    if input.promo.Some? {
      var claimed := ClaimPromo(db.promos, input.promo.value);
      if claimed.None? {
        return Err(PromoInvalid);
      }
      db.promos := claimed.value;
    }
    var order := Order(input.user, input.plan, input.qty, pricing.value.totalCents, OrderStatus.Pending, input.promo, None,
                       input.key, now, None, Some(now + input.expiresInMs), None, None);
    db.orders := db.orders + [order];
    return Ok(|db.orders| - 1);
  }

  method MarkPaid(db: Database, o: Id, externalId: Option<Txid>, now: int) returns (r: Result<()>)
    modifies db`orders
    ensures Commits(old(db.View()), db.View(), r, MarkPaidTx(old(db.View()), o, externalId, now))
  {
    if o >= |db.orders| {
      return Err(NotFound);
    }
    var order := db.orders[o];
    if order.status.Paid? || order.status.Delivering? || order.status.Delivered? {
      return Ok(());
    }
    if !MayMove(order.status, OrderStatus.Paid) {
      return Err(OrderState);
    }
    order := order.(status := OrderStatus.Paid);
    if order.paidAt.None? {
      order := order.(paidAt := Some(now));
    }
    if externalId.Some? {
      order := order.(externalId := externalId);
    }
    db.orders := db.orders[o := order];
    return Ok(());
  }

  method MarkDelivering(db: Database, o: Id) returns (r: Result<()>)
    modifies db`orders
    ensures Commits(old(db.View()), db.View(), r, MarkDeliveringTx(old(db.View()), o))
  {
    if o >= |db.orders| {
      return Err(NotFound);
    }
    if db.orders[o].status.Delivering? {
      return Ok(());
    }
    if !MayMove(db.orders[o].status, Delivering) {
      return Err(OrderState);
    }
    db.orders := db.orders[o := db.orders[o].(status := Delivering)];
    return Ok(());
  }

  method MarkDelivered(db: Database, o: Id, payload: string) returns (r: Result<()>)
    modifies db`orders
    ensures Commits(old(db.View()), db.View(), r, MarkDeliveredTx(old(db.View()), o, payload))
  {
    if o >= |db.orders| {
      return Err(NotFound);
    }
    if !MayMove(db.orders[o].status, Delivered) {
      return Err(OrderState);
    }
    db.orders := db.orders[o := db.orders[o].(status := Delivered, payload := Some(payload))];
    return Ok(());
  }

  method MarkFailed(db: Database, o: Id) returns (r: Result<()>)
    modifies db`orders, db`stock
    ensures Commits(old(db.View()), db.View(), r, MarkFailedTx(old(db.View()), o))
  {
    if o >= |db.orders| {
      return Err(NotFound);
    }
    if !MayMove(db.orders[o].status, OrderStatus.Failed) {
      return Err(OrderState);
    }
    db.stock := ReleaseReserved(db.stock, o);
    db.orders := db.orders[o := db.orders[o].(status := OrderStatus.Failed)];
    return Ok(());
  }

  method ExpireOrder(db: Database, o: Id) returns (r: Result<()>)
    modifies db`orders, db`stock, db`promos
    ensures Commits(old(db.View()), db.View(), r, ExpireOrderTx(old(db.View()), o))
  {
    if o >= |db.orders| {
      return Err(NotFound);
    }
    if !MayMove(db.orders[o].status, OrderStatus.Expired) {
      return Err(OrderState);
    }
    db.stock := ReleaseReserved(db.stock, o);
    db.promos := ReleasePromo(db.promos, db.orders[o].promo);
    db.orders := db.orders[o := db.orders[o].(status := OrderStatus.Expired)];
    return Ok(());
  }

  method RefundOrder(db: Database, o: Id) returns (r: Result<()>)
    modifies db
    ensures Commits(old(db.View()), db.View(), r, RefundOrderTx(old(db.View()), o))
  {
    var begin := db.View();
    if o >= |db.orders| {
      return Err(NotFound);
    }
    var order := db.orders[o];
    if !MayMove(order.status, Refunded) {
      return Err(OrderState);
    }
    db.stock := ReleaseReserved(db.stock, o);
    db.promos := ReleasePromo(db.promos, order.promo);
    var priorRefund := RefundTotal(db.rows, o);
    if order.amountCents > 0 && priorRefund == 0 {
      var credited := CreditUser(db, RefundEntry(order, o, RefundOf(o)));
      if credited.Err? {
        db.Rollback(begin);
        return Err(credited.error);
      }
    }
    db.orders := db.orders[o := order.(status := Refunded)];
    return Ok(());
  }

  method PayFromBalance(db: Database, o: Id, now: int) returns (r: Result<()>)
    modifies db
    ensures Commits(old(db.View()), db.View(), r, PayFromBalanceTx(old(db.View()), o, now))
  {
    var begin := db.View();
    if o >= |db.orders| {
      return Err(NotFound);
    }
    var order := db.orders[o];
    if order.amountCents > 0 {
      var debited := DebitUser(db, PurchaseEntry(order, o));
      if debited.Err? {
        db.Rollback(begin);
        return Err(debited.error);
      }
    }
    r := MarkPaid(db, o, None, now);
    if r.Err? {
      db.Rollback(begin);
    }
  }

  method FailAndRefund(db: Database, o: Id) returns (r: Result<()>)
    modifies db
    ensures Commits(old(db.View()), db.View(), r, FailAndRefundTx(old(db.View()), o))
  {
    var begin := db.View();
    r := MarkFailed(db, o);
    if r.Err? {
      return;
    }
    var order := db.orders[o];
    if order.amountCents > 0 {
      var credited := CreditUser(db, RefundEntry(order, o, FailureRefundOf(o)));
      if credited.Err? {
        db.Rollback(begin);
        return Err(credited.error);
      }
    }
  }

  // ---------------------------------------------------------------- one order per key

  lemma FindAppended(orders: seq<Order>, order: Order)
    ensures FindByKey(orders + [order], order.key) == Some(|orders|)
  {
  }

  /** What the plan, the quantity and the promo of a checkout come to. */
  function PriceAsked(db: Db, input: OrderInput, now: int): Result<nat>
    requires input.plan < |db.plans| && (input.promo.Some? ==> input.promo.value < |db.promos|)
  {
    var promo := if input.promo.Some? then Some(db.promos[input.promo.value]) else None;
    var total :- ComputeOrderTotal(db.plans[input.plan], input.plan, input.qty, promo, now);
    Ok(total.totalCents)
  }

  /** A checkout that is repeated, by the same client with whatever else has changed in its request,
      gets the order of the first and changes nothing; the order it made is a PENDING one for what was asked
      and for the computed price, and with a promo it has taken exactly one use that was still there. */
  lemma CreatedOnce(db: Db, input: OrderInput, now: int, again: OrderInput, later: int)
    requires CreateOrderTx(db, input, now).Ok? && again.key == input.key
    ensures var created := CreateOrderTx(db, input, now).value;
            && CreateOrderTx(created.db, again, later) == Ok(created)
            && (FindByKey(db.orders, input.key).None? ==>
                  && created.order == |db.orders| && created.db == db.(orders := created.db.orders, promos := created.db.promos)
                  && created.db.orders == db.orders + [Order(input.user, input.plan, input.qty, PriceAsked(db, input, now).value,
                       OrderStatus.Pending, input.promo, None, input.key, now, None, Some(now + input.expiresInMs), None, None)]
                  && |created.db.promos| == |db.promos|
                  && (forall i: Id | i < |db.promos| && input.promo != Some(i) :: created.db.promos[i] == db.promos[i])
                  && (input.promo.Some? ==>
                        var before, after := db.promos[input.promo.value], created.db.promos[input.promo.value];
                        && after == before.(usedCount := before.usedCount + 1)
                        && (before.maxUses.Some? ==> after.usedCount <= before.maxUses.value)))
  {
    var created := CreateOrderTx(db, input, now).value;
    if FindByKey(db.orders, input.key).None? {
      FindAppended(db.orders, created.db.orders[|db.orders|]);
    }
    hide ComputeOrderTotal;
  }

  /** Where a price can be computed the promo has a use left. */
  lemma PromoTaken(db: Db, input: OrderInput, now: int)
    requires input.plan < |db.plans| && (input.promo.Some? ==> input.promo.value < |db.promos|)
    ensures PriceAsked(db, input, now).Ok? && input.promo.Some? ==> ClaimPromo(db.promos, input.promo.value).Some?
  {
  }

  /** A first checkout is refused only for a plan that is not on sale, a promo that does not exist, or a
      price that cannot be computed. */
  lemma CreatesIff(db: Db, input: OrderInput, now: int)
    requires forall order | order in db.orders :: order.key != input.key
    ensures var r := CreateOrderTx(db, input, now);
            var onSale := input.plan < |db.plans| && db.plans[input.plan].isActive;
            var known := input.promo.None? || input.promo.value < |db.promos|;
            && (!onSale ==> r == Err(StockUnavailable))
            && (onSale && !known ==> r == Err(PromoInvalid))
            && (onSale && known ==>
                  if PriceAsked(db, input, now).Err? then r == Err(PriceAsked(db, input, now).error) else r.Ok?)
  {
    hide ComputeOrderTotal;
    if input.plan < |db.plans| && (input.promo.Some? ==> input.promo.value < |db.promos|) {
      PromoTaken(db, input, now);
    }
  }

  // ---------------------------------------------------------------- what the other transactions come to

  /** The transition table, transaction by transaction: from which statuses each of them goes on. */
  lemma HopsIff(db: Db, o: Id, externalId: Option<Txid>, payload: string, now: int)
    requires o < |db.orders|
    ensures var s := db.orders[o].status;
            && (MarkPaidTx(db, o, externalId, now).Ok? <==> !s.Failed? && !s.Refunded? && !s.Expired?)
            && (MarkDeliveringTx(db, o).Ok? <==> s.Paid? || s.Delivering?)
            && (MarkDeliveredTx(db, o, payload).Ok? <==> s.Delivering?)
            && (MarkFailedTx(db, o).Ok? <==> s.Pending? || s.Paid? || s.Delivering?)
            && (ExpireOrderTx(db, o).Ok? <==> s.Pending?)
            && (RefundOrderTx(db, o).Ok? ==> s.Paid? || s.Delivering? || s.Delivered? || s.Failed?)
  {
  }

  /** Only this order has changed, and of it only what is given. */
  predicate BecomesAlone(orders: seq<Order>, orders': seq<Order>, o: Id, order: Order) {
    && o < |orders| == |orders'| && orders'[o] == order
    && forall i: Id | i < |orders| && i != o :: orders'[i] == orders[i]
  }

  /** What was RESERVED for the order is for sale again, and nothing else is touched. */
  predicate Released(stock: seq<StockItem>, stock': seq<StockItem>, o: Id) {
    && |stock'| == |stock|
    && forall i: Id | i < |stock| ::
         stock'[i] == if stock[i].order == Some(o) && stock[i].status.Reserved?
                      then StockItem(stock[i].plan, stock[i].payload, Available, None) else stock[i]
  }

  /** The order's promo has one use less, but never less than none, and no other promo has changed. */
  predicate UseGivenBack(promos: seq<Promo>, promos': seq<Promo>, promo: Option<Id>) {
    && |promos'| == |promos|
    && forall p: Id | p < |promos| ::
         && promos'[p] == promos[p].(usedCount := promos'[p].usedCount)
         && (promo != Some(p) || promos[p].usedCount <= 0 ==> promos'[p].usedCount == if promo == Some(p) then 0 else promos[p].usedCount)
         && (promo == Some(p) && promos[p].usedCount > 0 ==> promos'[p].usedCount == promos[p].usedCount - 1)
  }

  /** Paying marks the order PAID, once: the first payment's moment and reference stay, and an order that is
      paid already is not touched. */
  lemma PaidOnce(db: Db, o: Id, externalId: Option<Txid>, now: int)
    requires MarkPaidTx(db, o, externalId, now).Ok?
    ensures var db', order := MarkPaidTx(db, o, externalId, now).value, db.orders[o];
            && db' == db.(orders := db'.orders)
            && (order.status.Pending? ==>
                  && BecomesAlone(db.orders, db'.orders, o, db'.orders[o])
                  && db'.orders[o].status.Paid? && db'.orders[o].paidAt == Some(if order.paidAt.Some? then order.paidAt.value else now)
                  && db'.orders[o].externalId == (if externalId.Some? then externalId else order.externalId)
                  && db'.orders[o].(status := order.status, paidAt := order.paidAt, externalId := order.externalId) == order)
            && (!order.status.Pending? ==> db' == db)
  {
  }

  /** The hops of a delivery change the status, and the payload where there is one, and nothing else. */
  lemma HopsAlone(db: Db, o: Id, payload: string)
    requires o < |db.orders|
    ensures var tx := MarkDeliveringTx(db, o);
            tx.Ok? ==> tx.value == db.(orders := tx.value.orders)
                       && BecomesAlone(db.orders, tx.value.orders, o, db.orders[o].(status := Delivering))
    ensures var tx := MarkDeliveredTx(db, o, payload);
            tx.Ok? ==> tx.value == db.(orders := tx.value.orders)
                       && BecomesAlone(db.orders, tx.value.orders, o, db.orders[o].(status := Delivered, payload := Some(payload)))
  {
  }

  /** Failing and expiring an order release its RESERVED stock, expiring gives its promo's use back too, and
      neither moves money. */
  lemma ClosedAlone(db: Db, o: Id)
    requires o < |db.orders|
    ensures var tx := MarkFailedTx(db, o);
            tx.Ok? ==> && tx.value == db.(orders := tx.value.orders, stock := tx.value.stock)
                       && BecomesAlone(db.orders, tx.value.orders, o, db.orders[o].(status := OrderStatus.Failed))
                       && Released(db.stock, tx.value.stock, o)
    ensures var tx := ExpireOrderTx(db, o);
            tx.Ok? ==> && tx.value == db.(orders := tx.value.orders, stock := tx.value.stock, promos := tx.value.promos)
                       && BecomesAlone(db.orders, tx.value.orders, o, db.orders[o].(status := OrderStatus.Expired))
                       && Released(db.stock, tx.value.stock, o) && UseGivenBack(db.promos, tx.value.promos, db.orders[o].promo)
  {
  }

  /** Paying from the balance: it goes through exactly for an order that may be PAID and a balance that covers
      its price, or that has paid it before; it takes the price from the buyer, unless taken before, and the
      order is PAID as of now. */
  lemma PaysIff(db: Db, o: Id, now: int)
    requires o < |db.orders|
    ensures var tx, order := PayFromBalanceTx(db, o, now), db.orders[o];
            var taken := order.amountCents > 0 && PurchaseOf(o) !in db.ledger.records;
            && (tx.Ok? <==> && !order.status.Failed? && !order.status.Refunded? && !order.status.Expired?
                            && (taken ==> BalanceOf(db.ledger.rows, order.user) >= order.amountCents)
                            && (order.amountCents > 0 && !taken ==> db.ledger.records[PurchaseOf(o)].LedgerRecord?))
            && (tx.Ok? ==>
                  && BooksOnly(db.ledger.rows, tx.value.ledger.rows,
                               Row(order.user, LedgerType.Purchase, if taken then 0 - order.amountCents else 0, Some(o), None))
                  && tx.value == db.(orders := tx.value.orders, ledger := tx.value.ledger)
                  && BecomesAlone(db.orders, tx.value.orders, o, tx.value.orders[o])
                  && Held(tx.value.orders[o].status) && (order.paidAt.None? && order.status.Pending? ==> tx.value.orders[o].paidAt == Some(now)))
  {
    PostMoves(db.ledger, Debit(PurchaseEntry(db.orders[o], o)));
    hide BalanceOf, Post;
  }

  predicate Held(s: OrderStatus) { s.Paid? || s.Delivering? || s.Delivered? }

  lemma GivenBackBy(stock: seq<StockItem>, promos: seq<Promo>, o: Id, promo: Option<Id>)
    ensures Released(stock, ReleaseReserved(stock, o), o) && UseGivenBack(promos, ReleasePromo(promos, promo), promo)
  {
  }

  /** Refunding by hand goes through exactly for an order that is held or FAILED; the buyer gets the whole
      price back, unless anything was given back for it before, and nobody else gets or loses a cent. */
  lemma RefundsIff(db: Db, o: Id)
    requires o < |db.orders| && BalanceOf(db.ledger.rows, db.orders[o].user) >= 0 && RefundOf(o) !in db.ledger.records
    ensures var tx, order := RefundOrderTx(db, o), db.orders[o];
            && (tx.Ok? <==> Held(order.status) || order.status.Failed?)
            && (tx.Ok? ==>
                  && BooksOnly(db.ledger.rows, tx.value.ledger.rows,
                               Row(order.user, LedgerType.Refund, if RefundTotal(db.ledger.rows, o) == 0 then order.amountCents else 0,
                                   Some(o), None))
                  && tx.value == db.(orders := tx.value.orders, stock := tx.value.stock, promos := tx.value.promos, ledger := tx.value.ledger)
                  && BecomesAlone(db.orders, tx.value.orders, o, order.(status := Refunded))
                  && Released(db.stock, tx.value.stock, o) && UseGivenBack(db.promos, tx.value.promos, order.promo))
  {
    hide Released, UseGivenBack, ReleaseReserved, ReleasePromo, RefundTotal, BalanceOf;
    PostMoves(db.ledger, Credit(RefundEntry(db.orders[o], o, RefundOf(o))));
    GivenBackBy(db.stock, db.promos, o, db.orders[o].promo);
    hide Post;
  }

  /** And failing an order whose delivery went wrong: exactly for one that is PENDING, PAID or DELIVERING. */
  lemma FailsIff(db: Db, o: Id)
    requires o < |db.orders| && BalanceOf(db.ledger.rows, db.orders[o].user) >= 0 && FailureRefundOf(o) !in db.ledger.records
    ensures var tx, order := FailAndRefundTx(db, o), db.orders[o];
            && (tx.Ok? <==> order.status.Pending? || order.status.Paid? || order.status.Delivering?)
            && (tx.Ok? ==>
                  && BooksOnly(db.ledger.rows, tx.value.ledger.rows, Row(order.user, LedgerType.Refund, order.amountCents, Some(o), None))
                  && tx.value == db.(orders := tx.value.orders, stock := tx.value.stock, ledger := tx.value.ledger)
                  && BecomesAlone(db.orders, tx.value.orders, o, order.(status := OrderStatus.Failed))
                  && Released(db.stock, tx.value.stock, o))
  {
    hide Released, UseGivenBack, ReleaseReserved, ReleasePromo, BalanceOf;
    PostMoves(db.ledger, Credit(RefundEntry(db.orders[o], o, FailureRefundOf(o))));
    GivenBackBy(db.stock, db.promos, o, None);
    hide Post;
  }
}
