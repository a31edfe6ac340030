/** Balance top-ups over four rails: payments-poll.worker.ts, domain/topup.ts and the CryptoBot
    webhook of apps/bot, and the TRON top-up of chain-scan. All credit under the key of the payment.

    Every settlement works from a copy of the payment it has read before its transaction. */
module Topup {
  import opened Schema
  import opened Sums
  import opened LedgerBook
  import opened Money
  import opened Orders
  import opened ChainScan
  import opened Settlement

  // ---------------------------------------------------------------- transactions

  predicate Waiting(s: PaymentStatus) { s.Pending? || s.Confirming? }

  function Claimed(db: Db, p: Id, row: Payment): Db
    requires p < |db.payments|
  {
    db.(payments := db.payments[p := row])
  }

  function TopupEntry(p: Id, user: Id, cents: int): Entry {
    Entry(user, cents, LedgerType.TopUp, None, Some(p), TopupOf(p))
  }

  /** The credit of a top-up and the claim before it commit together. */
  function Credited(db: Db, p: Id, user: Id, cents: int): Result<Db> {
    var ledger :- Booked(db.ledger, Credit(TopupEntry(p, user, cents)));
    Ok(db.(ledger := ledger))
  }

  /** `settleMissedTopup`; already settled elsewhere is a commit that changes nothing. */
  function SettleMissedTopupTx(db: Db, seen: Seen): Result<Db> {
    if seen.id >= |db.payments| || !Waiting(db.payments[seen.id].status) then Ok(db)
    else Credited(Claimed(db, seen.id, db.payments[seen.id].(status := PaymentStatus.Paid)), seen.id, seen.row.user, seen.row.amount)
  }

  /** The audit row that puts a payment on an operator's timeline. */
  function Flagged(db: Db, seen: Seen, kind: AnomalyKind): Db {
    db.(anomalies := db.anomalies + [Anomaly(seen.id, seen.row.order, kind)])
  }

  /** `resolveMismatchedPaidInvoice`: PAID and flagged for a human, nothing is credited. */
  function ResolveMismatchTx(db: Db, seen: Seen, kind: AnomalyKind): Db {
    if seen.id >= |db.payments| || !Waiting(db.payments[seen.id].status) then db
    else Flagged(Claimed(db, seen.id, db.payments[seen.id].(status := PaymentStatus.Paid)), seen, kind)
  }

  function MarkAmountMismatchTx(db: Db, seen: Seen): Db {
    if seen.id >= |db.payments| || !Waiting(db.payments[seen.id].status) then db
    else Flagged(Claimed(db, seen.id, db.payments[seen.id].(status := Underpaid)), seen, AmountMismatch)
  }

  /** The first transaction of `settlePaidInvoice`: whether this call sold the order. */
  function SellInvoiced(db: Db, seen: Seen, now: int): Option<Db> {
    if seen.row.order.None? || seen.row.order.value >= |db.orders| || !db.orders[seen.row.order.value].status.Pending?
       || seen.id >= |db.payments|
    then None
    else
      var o := seen.row.order.value;
      Some(Claimed(db.(orders := db.orders[o := db.orders[o].(status := OrderStatus.Paid, paidAt := Some(now))]),
                   seen.id, db.payments[seen.id].(status := PaymentStatus.Paid)))
  }

  predicate ClosedForGood(s: OrderStatus) { s.Expired? || s.Failed? || s.Refunded? }

  /** An uninterrupted `settlePaidInvoice`. */
  function SettlePaidInvoiceTx(db: Db, seen: Seen, now: int): Result<Db> {
    if seen.row.order.None? then
      if seen.row.topupReference then SettleMissedTopupTx(db, seen) else Ok(ResolveMismatchTx(db, seen, PaidNoOrder))
    else
      var sold := SellInvoiced(db, seen, now);
      if sold.Some? then Ok(sold.value)
      else if seen.row.order.value < |db.orders| && ClosedForGood(db.orders[seen.row.order.value].status)
      then Ok(ResolveMismatchTx(db, seen, PaidOrderClosed))
      else Ok(db)
  }

  /** The sweep's plain update: whatever the row has become meanwhile. */
  function ExpirePolled(db: Db, seen: Seen): Db {
    if seen.id < |db.payments| then Claimed(db, seen.id, db.payments[seen.id].(status := PaymentStatus.Expired)) else db
  }

  /** The webhook's plain update: the status and the provider's body, which has no reference. */
  function RefuseAmount(db: Db, seen: Seen): Db {
    if seen.id < |db.payments| then Claimed(db, seen.id, db.payments[seen.id].(status := Underpaid, topupReference := false)) else db
  }

  predicate Settleable(s: PaymentStatus) { Waiting(s) || s.Underpaid? }

  function SettleCryptoBotTx(db: Db, seen: Seen, cents: int): Result<Db> {
    if !Settleable(seen.row.status) || seen.id >= |db.payments| || db.payments[seen.id].status.Paid? then Ok(db)
    else
      var row := db.payments[seen.id].(status := PaymentStatus.Paid, topupReference := seen.row.topupReference);
      Credited(Claimed(db, seen.id, row), seen.id, seen.row.user, cents)
  }

  /** What a paid webhook does with the payment it found. */
  function WebhookTx(db: Db, seen: Seen, cents: Option<nat>): Result<Db> {
    if seen.row.status.Paid? then Ok(db)
    else if cents.None? || cents.value != seen.row.amount then Ok(RefuseAmount(db, seen))
    else SettleCryptoBotTx(db, seen, cents.value)
  }

  /** What a Stars update says about who paid and how many Stars, when it says so. */
  datatype StarsReceipt = StarsReceipt(payer: Option<Id>, totalStars: Option<int>)

  /** `amount` of a STARS row is the number of Stars asked. */
  predicate Honours(receipt: StarsReceipt, row: Payment) {
    && (receipt.payer.Some? ==> receipt.payer.value == row.user)
    && (receipt.totalStars.Some? ==> 0 < receipt.totalStars.value <= MAX_SAFE_INTEGER && row.amount == receipt.totalStars.value)
  }

  /** `received` of a STARS row is the `amountCents` of its payload. */
  function SettleStarsTx(db: Db, seen: Seen, receipt: StarsReceipt): Result<Db> {
    if !Honours(receipt, seen.row) || seen.row.received <= 0 || seen.id >= |db.payments| || !Waiting(db.payments[seen.id].status)
    then Ok(db)
    else
      var row := db.payments[seen.id].(status := PaymentStatus.Paid, topupReference := seen.row.topupReference);
      Credited(Claimed(db, seen.id, row), seen.id, seen.row.user, seen.row.received)
  }

  // ---------------------------------------------------------------- the same, in place

  /** UPDATE payments SET ... WHERE id = p. */
  method SetPayment(db: Database, p: Id, row: Payment)
    requires p < |db.payments|
    modifies db`payments
    ensures db.View() == Claimed(old(db.View()), p, row)
  {
    db.payments := db.payments[p := row];
  }

  method SettleMissedTopup(db: Database, seen: Seen) returns (r: Result<()>)
    modifies db
    ensures Commits(old(db.View()), db.View(), r, SettleMissedTopupTx(old(db.View()), seen))
  {
    var begin := db.View();
    if seen.id >= |db.payments| || !Waiting(db.payments[seen.id].status) {
      return Ok(());
    }
    SetPayment(db, seen.id, db.payments[seen.id].(status := PaymentStatus.Paid));
    var credited := CreditUser(db, TopupEntry(seen.id, seen.row.user, seen.row.amount));
    if credited.Err? {
      db.Rollback(begin);
      return Err(credited.error);
    }
    return Ok(());
  }

  method ResolveMismatchedPaidInvoice(db: Database, seen: Seen, kind: AnomalyKind)
    modifies db
    ensures db.View() == ResolveMismatchTx(old(db.View()), seen, kind)
  {
    if seen.id < |db.payments| && Waiting(db.payments[seen.id].status) {
      SetPayment(db, seen.id, db.payments[seen.id].(status := PaymentStatus.Paid));
      db.anomalies := db.anomalies + [Anomaly(seen.id, seen.row.order, kind)];
    }
  }

  method SettlePaidInvoice(db: Database, seen: Seen, now: int) returns (r: Result<bool>)
    modifies db
    ensures var tx := SettlePaidInvoiceTx(old(db.View()), seen, now);
            if tx.Ok? then r == Ok(SellInvoiced(old(db.View()), seen, now).Some?) && db.View() == tx.value
            else r == Err(tx.error) && db.View() == old(db.View())
  {
    if seen.row.order.None? {
      if seen.row.topupReference {
        var settled := SettleMissedTopup(db, seen);
        if settled.Err? {
          return Err(settled.error);
        }
      } else {
        ResolveMismatchedPaidInvoice(db, seen, PaidNoOrder);
      }
      return Ok(false);
    }
    var o := seen.row.order.value;
    if o < |db.orders| && db.orders[o].status.Pending? && seen.id < |db.payments| {
      db.orders := db.orders[o := db.orders[o].(status := OrderStatus.Paid, paidAt := Some(now))];
      SetPayment(db, seen.id, db.payments[seen.id].(status := PaymentStatus.Paid));
      return Ok(true);
    }
    if o < |db.orders| && ClosedForGood(db.orders[o].status) {
      ResolveMismatchedPaidInvoice(db, seen, PaidOrderClosed);
    }
    return Ok(false);
  }

  method SettleCryptoBotTopup(db: Database, seen: Seen, cents: int) returns (r: Result<()>)
    modifies db
    ensures Commits(old(db.View()), db.View(), r, SettleCryptoBotTx(old(db.View()), seen, cents))
  {
    var begin := db.View();
    if seen.row.status.Paid? || !Settleable(seen.row.status) {
      return Ok(());
    }
    if seen.id >= |db.payments| || db.payments[seen.id].status.Paid? {
      return Ok(());
    }
    SetPayment(db, seen.id, db.payments[seen.id].(status := PaymentStatus.Paid, topupReference := seen.row.topupReference));
    var credited := CreditUser(db, TopupEntry(seen.id, seen.row.user, cents));
    if credited.Err? {
      db.Rollback(begin);
      return Err(credited.error);
    }
    return Ok(());
  }

  method SettleStarsTopup(db: Database, seen: Seen, receipt: StarsReceipt) returns (r: Result<()>)
    modifies db
    ensures Commits(old(db.View()), db.View(), r, SettleStarsTx(old(db.View()), seen, receipt))
  {
    var begin := db.View();
    if receipt.payer.Some? && receipt.payer.value != seen.row.user {
      return Ok(());
    }
    if receipt.totalStars.Some?
       && (receipt.totalStars.value > MAX_SAFE_INTEGER || receipt.totalStars.value <= 0 || seen.row.amount != receipt.totalStars.value) {
      return Ok(());
    }
    if seen.row.received <= 0 || seen.id >= |db.payments| || !Waiting(db.payments[seen.id].status) {
      return Ok(());
    }
    SetPayment(db, seen.id, db.payments[seen.id].(status := PaymentStatus.Paid, topupReference := seen.row.topupReference));
    var credited := CreditUser(db, TopupEntry(seen.id, seen.row.user, seen.row.received));
    if credited.Err? {
      db.Rollback(begin);
      return Err(credited.error);
    }
    return Ok(());
  }

  // ---------------------------------------------------------------- one poll

  /** What the provider says about an invoice; `None` cents is an amount that does not parse. */
  datatype Invoice = InvoicePaid(cents: Option<nat>) | InvoiceExpired | InvoiceActive

  /** A settlement that throws ends the sweep. */
  datatype Polled = Polled(db: Db, settled: nat, thrown: Option<Error>)

  function PollOne(s: Polled, seen: Seen, invoice: Invoice, now: int): Polled {
    match invoice
    case InvoicePaid(cents) =>
      if cents.None? || cents.value != seen.row.amount then s.(db := MarkAmountMismatchTx(s.db, seen))
      else
        var tx := SettlePaidInvoiceTx(s.db, seen, now);
        if tx.Err? then s.(thrown := Some(tx.error))
        else Polled(tx.value, s.settled + (if SellInvoiced(s.db, seen, now).Some? then 1 else 0), None)
    case InvoiceExpired => if seen.row.status.Pending? then s.(db := ExpirePolled(s.db, seen)) else s
    case InvoiceActive => s
  }

  function PollAll(s: Polled, pending: seq<Seen>, invoices: map<Id, Invoice>, now: int): Polled {
    if pending == [] then s
    else
      var before := PollAll(s, pending[..|pending| - 1], invoices, now);
      var seen := pending[|pending| - 1];
      if before.thrown.None? && seen.id in invoices then PollOne(before, seen, invoices[seen.id], now) else before
  }

  lemma {:induction false} ThrownStays(s: Polled, pending: seq<Seen>, n: nat, invoices: map<Id, Invoice>, now: int)
    requires n <= |pending| && PollAll(s, pending[..n], invoices, now).thrown.Some?
    ensures PollAll(s, pending, invoices, now) == PollAll(s, pending[..n], invoices, now)
    decreases |pending| - n
  {
    if n == |pending| {
      assert pending[..n] == pending;
    } else {
      assert pending[..n + 1][..n] == pending[..n];
      ThrownStays(s, pending, n + 1, invoices, now);
    }
  }

  /** The sweep over the payments it selected, with the provider's answers. */
  method ProcessPaymentsPoll(db: Database, pending: seq<Seen>, invoices: map<Id, Invoice>, now: int) returns (r: Result<nat>)
    modifies db
    ensures var end := PollAll(Polled(old(db.View()), 0, None), pending, invoices, now);
            && db.View() == end.db
            && r == if end.thrown.Some? then Err(end.thrown.value) else Ok(end.settled)
  {
    ghost var start := Polled(db.View(), 0, None);
    var settledCount := 0;
    var n := 0;
    while n < |pending|
      invariant 0 <= n <= |pending|
      invariant Polled(db.View(), settledCount, None) == PollAll(start, pending[..n], invoices, now)
    {
      var seen := pending[n];
      assert pending[..n + 1][..n] == pending[..n];
      n := n + 1;
      if seen.id !in invoices {
        continue;
      }
      match invoices[seen.id] {
        case InvoicePaid(cents) =>
          if cents.None? || cents.value != seen.row.amount {
            if seen.id < |db.payments| && Waiting(db.payments[seen.id].status) {
              SetPayment(db, seen.id, db.payments[seen.id].(status := Underpaid));
              db.anomalies := db.anomalies + [Anomaly(seen.id, seen.row.order, AmountMismatch)];
            }
          } else {
            var settled := SettlePaidInvoice(db, seen, now);
            if settled.Err? {
              ThrownStays(start, pending, n, invoices, now);
              return Err(settled.error);
            }
            if settled.value {
              settledCount := settledCount + 1;
            }
          }
        case InvoiceExpired =>
          if seen.row.status.Pending? && seen.id < |db.payments| {
            SetPayment(db, seen.id, db.payments[seen.id].(status := PaymentStatus.Expired));
          }
        case InvoiceActive =>
      }
    }
    assert pending[..n] == pending;
    return Ok(settledCount);
  }

  // ---------------------------------------------------------------- what the sweep sells

  /** A paid invoice of an order: a PENDING order is PAID as of now, and with it the payment, and nothing else
      in the shop has changed; any other order stays what it is, and no money is booked either way. */
  lemma PollSellsIff(db: Db, seen: Seen, o: Id, now: int)
    requires seen.id < |db.payments| && seen.row.order == Some(o) && o < |db.orders|
    ensures var tx := SettlePaidInvoiceTx(db, seen, now);
            && tx.Ok?
            && (SellInvoiced(db, seen, now).Some? <==> db.orders[o].status.Pending?)
            && (db.orders[o].status.Pending? ==>
                  && tx.value == db.(orders := tx.value.orders, payments := tx.value.payments)
                  && BecomesAlone(db.orders, tx.value.orders, o, db.orders[o].(status := OrderStatus.Paid, paidAt := Some(now)))
                  && tx.value.payments == db.payments[seen.id := db.payments[seen.id].(status := PaymentStatus.Paid)])
            && (!db.orders[o].status.Pending? ==>
                  && tx.value == db.(payments := tx.value.payments, anomalies := tx.value.anomalies)
                  && (tx.value != db ==> ClosedForGood(db.orders[o].status)))
  {
  }

  function PendingShare(): Order -> int {
    (order: Order) => if order.status.Pending? then 1 else 0
  }

  function PendingOrders(orders: seq<Order>): int {
    Sum(orders, PendingShare())
  }

  /** A poll only ever sells. */
  predicate SoldAt(a: Order, b: Order, now: int) {
    b == a || (a.status.Pending? && b == a.(status := OrderStatus.Paid, paidAt := Some(now)))
  }

  lemma PollOneCounts(s: Polled, seen: Seen, invoice: Invoice, now: int)
    ensures var end := PollOne(s, seen, invoice, now);
            && end.settled - s.settled == PendingOrders(s.db.orders) - PendingOrders(end.db.orders)
            && |end.db.orders| == |s.db.orders|
            && forall o: Id | o < |s.db.orders| :: SoldAt(s.db.orders[o], end.db.orders[o], now)
  {
    var sold := SellInvoiced(s.db, seen, now);
    if sold.Some? {
      var o := seen.row.order.value;
      SumUpdate(s.db.orders, o, sold.value.orders[o], PendingShare());
    }
    hide Booked;
  }

  /** The number a sweep reports is the number of orders it has sold, each PENDING before and PAID as of the
      sweep; no other order has changed, however the sweep ends. */
  lemma {:induction false} PollCounts(s: Polled, pending: seq<Seen>, invoices: map<Id, Invoice>, now: int)
    ensures var end := PollAll(s, pending, invoices, now);
            && end.settled - s.settled == PendingOrders(s.db.orders) - PendingOrders(end.db.orders)
            && |end.db.orders| == |s.db.orders|
            && forall o: Id | o < |s.db.orders| :: SoldAt(s.db.orders[o], end.db.orders[o], now)
  {
    hide PollOne;
    if pending != [] {
      var before, seen := PollAll(s, pending[..|pending| - 1], invoices, now), pending[|pending| - 1];
      PollCounts(s, pending[..|pending| - 1], invoices, now);
      if seen.id in invoices { PollOneCounts(before, seen, invoices[seen.id], now); }
    }
  }

  // ---------------------------------------------------------------- what a top-up brings its buyer

  /** A first credit of a top-up. */
  predicate FirstCredit(db: Db, seen: Seen, cents: int) {
    && seen.id < |db.payments| && cents > 0 && TopupOf(seen.id) !in db.ledger.records
    && BalanceOf(db.ledger.rows, seen.row.user) >= 0
  }

  /** The row has become this, no other row has changed, and the buyer has the credit. */
  ghost predicate CreditedFor(db: Db, after: Db, seen: Seen, row: Payment, cents: int) {
    && seen.id < |db.payments|
    && after == db.(payments := db.payments[seen.id := row], ledger := after.ledger)
    && BooksOnly(db.ledger.rows, after.ledger.rows, Row(seen.row.user, LedgerType.TopUp, cents, None, Some(seen.id)))
  }

  lemma CreditReaches(db: Db, seen: Seen, row: Payment, cents: int)
    requires FirstCredit(db, seen, cents)
    ensures var tx := Credited(Claimed(db, seen.id, row), seen.id, seen.row.user, cents);
            tx.Ok? && CreditedFor(db, tx.value, seen, row, cents)
  {
    PostMoves(db.ledger, Credit(TopupEntry(seen.id, seen.row.user, cents)));
    hide Post, BalanceOf;
  }

  /** The poll credits a top-up its amount, on the balance of who asked for it, exactly if it is still waiting. */
  lemma PollCredits(db: Db, seen: Seen, now: int)
    requires FirstCredit(db, seen, seen.row.amount) && seen.row.order.None? && seen.row.topupReference
    ensures var tx, row := SettlePaidInvoiceTx(db, seen, now), db.payments[seen.id];
            && tx.Ok?
            && if row.status.Pending? || row.status.Confirming?
               then CreditedFor(db, tx.value, seen, row.(status := PaymentStatus.Paid), seen.row.amount)
               else tx.value == db
  {
    CreditReaches(db, seen, db.payments[seen.id].(status := PaymentStatus.Paid), seen.row.amount);
    hide Credited, CreditedFor;
  }

  /** The webhook credits the amount, exactly if it is the one asked for, the payment was read as waiting or
      UNDERPAID, and it is not PAID by now; another amount makes it UNDERPAID, and nothing else does anything. */
  lemma WebhookCredits(db: Db, seen: Seen, cents: Option<nat>)
    requires FirstCredit(db, seen, seen.row.amount)
    ensures var tx, row, read := WebhookTx(db, seen, cents), db.payments[seen.id], seen.row;
            && tx.Ok?
            && if read.status.Paid? then tx.value == db
               else if cents.None? || cents.value != read.amount
               then tx.value == db.(payments := db.payments[seen.id := row.(status := Underpaid, topupReference := false)])
               else if read.status.Expired? || read.status.Failed? || row.status.Paid? then tx.value == db
               else CreditedFor(db, tx.value, seen, row.(status := PaymentStatus.Paid, topupReference := read.topupReference), read.amount)
  {
    CreditReaches(db, seen, db.payments[seen.id].(status := PaymentStatus.Paid, topupReference := seen.row.topupReference), seen.row.amount);
    hide Credited, CreditedFor;
  }

  /** A Stars update credits the cents that were promised for the Stars, exactly if the payer and the number of
      Stars, where it names them, are the ones asked, and the payment is still waiting. */
  lemma StarsCredit(db: Db, seen: Seen, receipt: StarsReceipt)
    requires FirstCredit(db, seen, seen.row.received)
    ensures var tx, row := SettleStarsTx(db, seen, receipt), db.payments[seen.id];
            && tx.Ok?
            && if (receipt.payer.Some? && receipt.payer.value != seen.row.user)
                  || (receipt.totalStars.Some? && (receipt.totalStars.value != seen.row.amount || receipt.totalStars.value <= 0
                                                   || receipt.totalStars.value > 9007199254740991))
                  || !(row.status.Pending? || row.status.Confirming?)
               then tx.value == db
               else CreditedFor(db, tx.value, seen, row.(status := PaymentStatus.Paid, topupReference := seen.row.topupReference),
                                seen.row.received)
  {
    CreditReaches(db, seen, db.payments[seen.id].(status := PaymentStatus.Paid, topupReference := seen.row.topupReference), seen.row.received);
    hide Credited, CreditedFor;
  }

  // ---------------------------------------------------------------- what stops the poll

  /** The provider reports a selected payment paid, with the amount asked. Unless its settlement throws,
      the next sweep selects it no more if and only if its order was not already on its way: a CryptoBot
      payment for an order that another rail has paid stays where it was, sweep after sweep. An operator
      is told, once, if and only if the order is over, or there is neither an order nor a top-up. */
  lemma PollStopsIff(db: Db, p: Id, now: int)
    requires p < |db.payments| && Waiting(db.payments[p].status) && SettlePaidInvoiceTx(db, See(db, p), now).Ok?
    requires db.payments[p].order.Some? ==> db.payments[p].order.value < |db.orders|
    ensures var row, after := db.payments[p], SettlePaidInvoiceTx(db, See(db, p), now).value;
            && (Waiting(after.payments[p].status) <==>
                  row.order.Some? && (db.orders[row.order.value].status.Paid? || db.orders[row.order.value].status.Delivering?
                                      || db.orders[row.order.value].status.Delivered?))
            && (!Waiting(after.payments[p].status) ==> after.payments[p].status.Paid?)
            && after.anomalies == db.anomalies + (
                 if row.order.Some? && ClosedForGood(db.orders[row.order.value].status) then [Anomaly(p, row.order, PaidOrderClosed)]
                 else if row.order.None? && !row.topupReference then [Anomaly(p, None, PaidNoOrder)] else [])
  {
  }

  /** An invoice that the provider reports expired makes the payment EXPIRED exactly if it was read as PENDING;
      one that is still active, and a payment that is waiting no more when another amount was paid, are left
      alone. */
  lemma PollLeaves(s: Polled, seen: Seen, cents: Option<nat>, now: int)
    requires seen.id < |s.db.payments|
    ensures PollOne(s, seen, InvoiceActive, now) == s
    ensures PollOne(s, seen, InvoiceExpired, now)
            == if seen.row.status.Pending?
               then s.(db := s.db.(payments := s.db.payments[seen.id := s.db.payments[seen.id].(status := PaymentStatus.Expired)]))
               else s
    ensures var row := s.db.payments[seen.id];
            !row.status.Pending? && !row.status.Confirming? && (cents.None? || cents.value != seen.row.amount) ==>
              PollOne(s, seen, InvoicePaid(cents), now) == s
  {
  }

  /** A paid invoice of another amount never settles anything: no ledger row, no order, and the payment
      leaves the poll for an operator, who is told. */
  lemma WrongAmountNeverSettles(db: Db, p: Id, cents: Option<nat>, now: int)
    requires p < |db.payments| && Waiting(db.payments[p].status) && (cents.Some? ==> cents.value != db.payments[p].amount)
    ensures var after := PollOne(Polled(db, 0, None), See(db, p), InvoicePaid(cents), now);
            && after.settled == 0 && after.db.ledger == db.ledger && after.db.orders == db.orders
            && !Waiting(after.db.payments[p].status) && !after.db.payments[p].status.Paid?
            && after.db.anomalies == db.anomalies + [Anomaly(p, db.payments[p].order, AmountMismatch)]
            && forall i: Id | i < |db.payments| && i != p :: after.db.payments[i] == db.payments[i]
  {
  }
}
