/** apps/worker/src/queues/chain-scan.worker.ts: settling transfers into one shared wallet.

    As in Orders, `XTx` is the transaction X as a function and the method X is that function in
    place. Rows are compared and set on their current status; everything a sweep knows about a
    row besides is a copy that may be stale. */
module ChainScan {
  import opened Schema
  import opened Sums
  import opened LedgerBook
  import opened Money
  import opened Orders
  import opened TronMatch
  import opened TagProtocol

  /** A row as some sweep read it, joined with its order. */
  datatype Seen = Seen(id: Id, row: Payment, order: Option<Order>)

  function See(db: Db, p: Id): Seen
    requires p < |db.payments|
  {
    var row := db.payments[p];
    Seen(p, row, if row.order.Some? && row.order.value < |db.orders| then Some(db.orders[row.order.value]) else None)
  }

  function CeilCents(amountUsdt6: nat): nat {
    (amountUsdt6 + CENTS_TO_USDT6 - 1) / CENTS_TO_USDT6
  }

  // ---------------------------------------------------------------- single statements

  /** CONFIRMING -> `status`, or somebody else settled the row. */
  function ClaimPayment(payments: seq<Payment>, p: Id, status: PaymentStatus, amount: int): Result<seq<Payment>> {
    if p < |payments| && payments[p].status.Confirming?
    then Ok(payments[p := payments[p].(status := status, amount := amount)])
    else Err(StaleSettlement)
  }

  /** PENDING -> PAID by this transfer, or the order is closed. */
  function SellOrder(orders: seq<Order>, o: Id, ask: int, txid: Txid, now: int): Option<seq<Order>> {
    if o < |orders| && orders[o].status.Pending?
    then Some(orders[o := orders[o].(status := OrderStatus.Paid, paidAt := Some(now), externalId := Some(txid),
                                      tronAsk := Some(ask))])
    else None
  }

  function CloseUnderpaid(payments: seq<Payment>, o: Id): seq<Payment> {
    seq(|payments|, i requires 0 <= i < |payments| =>
      if payments[i].provider.Tron? && payments[i].order == Some(o) && payments[i].status.Underpaid?
      then payments[i].(status := PaymentStatus.Paid)
      else payments[i])
  }

  function TronEntry(seen: Seen, cents: int, kind: LedgerType, key: Key): Entry {
    Entry(seen.row.user, cents, kind, seen.row.order, Some(seen.id), key)
  }

  /** The surplus, the short payment, the late payment or the top-up, in whole cents; dust is not booked. */
  function CreditDust(l: Ledger, seen: Seen, cents: nat, key: Key): Result<Ledger> {
    if cents > 0 then Booked(l, Credit(TronEntry(seen, cents, LedgerType.TopUp, key))) else Ok(l)
  }

  /** A TOPUP row of a payment on order `o` that is UNDERPAID. */
  function PriorShare(payments: seq<Payment>, o: Id): Row -> int {
    (r: Row) =>
      if r.order == Some(o) && r.kind.TopUp? && r.payment.Some? && r.payment.value < |payments|
         && payments[r.payment.value].provider.Tron? && payments[r.payment.value].order == Some(o)
         && payments[r.payment.value].status.Underpaid?
      then r.amountCents else 0
  }

  function PriorUnderpaidCents(db: Db, o: Id): int {
    Sum(db.ledger.rows, PriorShare(db.payments, o))
  }

  function FindTx(payments: seq<Payment>, txid: Txid): (r: Option<Id>)
    ensures r.Some? ==> r.value < |payments| && payments[r.value].provider.Tron? && payments[r.value].txHash == Some(txid)
    ensures r.None? ==> forall i: nat | i < |payments| && payments[i].provider.Tron? :: payments[i].txHash != Some(txid)
  {
    if payments == [] then None
    else
      var n := |payments| - 1;
      if payments[n].provider.Tron? && payments[n].txHash == Some(txid) then Some(n) else FindTx(payments[..n], txid)
  }

  /** `expectedFor`: the amount of the order's oldest candidate, or the row's own. */
  function OldestOf(cs: seq<Candidate>, o: Id): (r: Option<nat>)
    ensures r.Some? ==> r.value < |cs| && cs[r.value].row.order == Some(o)
                        && forall k: nat | k < |cs| && cs[k].row.order == Some(o) :: cs[r.value].createdAt <= cs[k].createdAt
    ensures r.None? ==> forall k: nat | k < |cs| :: cs[k].row.order != Some(o)
  {
    if cs == [] then None
    else
      var n := |cs| - 1;
      var earlier := OldestOf(cs[..n], o);
      if cs[n].row.order != Some(o) then earlier
      else if earlier.Some? && cs[earlier.value].createdAt <= cs[n].createdAt then earlier
      else Some(n)
  }

  function ExpectedFor(seen: Seen, cs: seq<Candidate>): int {
    if seen.row.order.None? then seen.row.amount
    else
      var oldest := OldestOf(cs, seen.row.order.value);
      if oldest.Some? then cs[oldest.value].amount else seen.row.amount
  }

  // ---------------------------------------------------------------- transactions

  function ExpireStaleTx(payments: seq<Payment>, now: int): seq<Payment> {
    seq(|payments|, i requires 0 <= i < |payments| =>
      if payments[i].provider.Tron? && payments[i].status.Pending? && payments[i].txHash.None?
         && payments[i].createdAt < now - TAG_HOLD_MS
      then payments[i].(status := PaymentStatus.Expired)
      else payments[i])
  }

  datatype Bound = Bound(payments: seq<Payment>, id: Id)

  function FollowUp(c: Candidate, txid: Txid, received: nat, at: int): Payment {
    Payment(Provider.Tron, c.row.order, c.row.user, received, Some(txid), PaymentStatus.Confirming, false, at, received, None)
  }

  /** A fresh invoice takes the transfer itself; an UNDERPAID one gets a second row. */
  function BindTx(payments: seq<Payment>, c: Candidate, txid: Txid, received: nat, at: int): Result<Bound> {
    var taken := FindTx(payments, txid);
    if c.txHash.None? then
      if c.id >= |payments| || payments[c.id].txHash.Some? then Err(StaleSettlement)
      else if taken.Some? then Err(UniqueViolation)
      else Ok(Bound(payments[c.id := payments[c.id].(txHash := Some(txid), status := PaymentStatus.Confirming,
                                                     received := received, topupReference := false)], c.id))
    else if taken.Some? then Ok(Bound(payments, taken.value))
    else Ok(Bound(payments + [FollowUp(c, txid, received, at)], |payments|))
  }

  /** `settleOrderPaid`; `Ok(None)` is the outcome 'closed'. */
  function OrderPaidTx(db: Db, seen: Seen, expected: int, received: nat, txid: Txid, now: int): Result<Option<Db>>
    requires received >= expected
  {
    if seen.row.order.None? then Ok(None)
    else
      var orders := SellOrder(db.orders, seen.row.order.value, expected, txid, now);
      if orders.None? then Ok(None)
      else
        var payments :- ClaimPayment(db.payments, seen.id, PaymentStatus.Paid, received);
        var ledger :- CreditDust(db.ledger, seen, UsdCents(received - expected), OverpaidOf(seen.id));
        Ok(Some(db.(orders := orders.value, payments := payments, ledger := ledger)))
  }

  /** `settleOrderCompleted`: the earlier credits are taken back as the purchase. */
  function OrderCompletedTx(db: Db, seen: Seen, expected: int, received: nat, txid: Txid, now: int): Result<Option<Db>>
    requires received < expected
  {
    if seen.row.order.None? then Ok(None)
    else
      var orders := SellOrder(db.orders, seen.row.order.value, expected, txid, now);
      if orders.None? then Ok(None)
      else
        var payments :- ClaimPayment(db.payments, seen.id, PaymentStatus.Paid, received);
        var needed := CeilCents(expected - received);
        var ledger :- Booked(db.ledger, Debit(TronEntry(seen, needed, LedgerType.Purchase, ReclaimOf(seen.id))));
        Ok(Some(db.(orders := orders.value, payments := CloseUnderpaid(payments, seen.row.order.value), ledger := ledger)))
  }

  function UnderpaidTx(db: Db, seen: Seen, expected: int, received: nat): Result<Db> {
    var payments :- ClaimPayment(db.payments, seen.id, PaymentStatus.Underpaid, expected);
    var ledger :- CreditDust(db.ledger, seen, UsdCents(received), UnderpaidOf(seen.id));
    Ok(db.(payments := payments, ledger := ledger))
  }

  function LateTx(db: Db, seen: Seen, received: nat): Result<Db> {
    var payments :- ClaimPayment(db.payments, seen.id, PaymentStatus.Paid, received);
    var ledger :- CreditDust(db.ledger, seen, UsdCents(received), LateOf(seen.id));
    Ok(db.(payments := payments, ledger := ledger))
  }

  /** After a late payment: an order paid on another rail is flagged. */
  function FlagDoublePaid(db: Db, o: Option<Id>, txid: Txid): Db {
    if o.Some? && o.value < |db.orders|
       && (db.orders[o.value].status.Paid? || db.orders[o.value].status.Delivering? || db.orders[o.value].status.Delivered?)
    then db.(flagged := db.flagged + {txid})
    else db
  }

  function TopupTx(db: Db, seen: Seen, received: nat): Result<Db> {
    var payments :- ClaimPayment(db.payments, seen.id, PaymentStatus.Paid, received);
    var ledger :- if UsdCents(received) > 0
                  then Booked(db.ledger, Credit(Entry(seen.row.user, UsdCents(received), LedgerType.TopUp, None, Some(seen.id),
                                                      TopupOf(seen.id))))
                  else Ok(db.ledger);
    Ok(db.(payments := payments, ledger := ledger))
  }

  function SettleLateTx(db: Db, seen: Seen, received: nat, txid: Txid): Result<Db> {
    var late :- LateTx(db, seen, received);
    Ok(FlagDoublePaid(late, seen.row.order, txid))
  }

  /** An uninterrupted `settle`: the one outcome a bound transfer can have. */
  function SettleTx(db: Db, seen: Seen, expected: int, received: nat, txid: Txid, now: int, clock: int): Result<Db> {
    if seen.row.order.None? || seen.order.None? then TopupTx(db, seen, received)
    else if OrderClosed(seen.order, now) then SettleLateTx(db, seen, received, txid)
    else if received >= expected then
      match OrderPaidTx(db, seen, expected, received, txid, clock)
      case Err(e) => Err(e)
      case Ok(None) => SettleLateTx(db, seen, received, txid)
      case Ok(Some(sold)) => Ok(sold)
    else if received + PriorUnderpaidCents(db, seen.row.order.value) * CENTS_TO_USDT6 < expected then
      UnderpaidTx(db, seen, expected, received)
    else
      match OrderCompletedTx(db, seen, expected, received, txid, clock)
      case Err(InsufficientBalance) => UnderpaidTx(db, seen, expected, received)
      case Err(e) => Err(e)
      case Ok(None) => SettleLateTx(db, seen, received, txid)
      case Ok(Some(sold)) => Ok(sold)
  }

  // ---------------------------------------------------------------- what a sweep does to the rows

  /** Exactly the unpaid invoices that are older than the hold become EXPIRED. */
  lemma ExpiresExactly(payments: seq<Payment>, now: int, i: nat)
    requires i < |payments|
    ensures var after, p := ExpireStaleTx(payments, now), payments[i];
            && |after| == |payments|
            && after[i] == if p.provider.Tron? && p.status.Pending? && p.txHash.None? && now - p.createdAt > 50 * 60 * 1000
                           then p.(status := PaymentStatus.Expired) else p
  {
  }

  /** Binding: a fresh invoice takes a new transfer, once. For one that has had a transfer, a new transfer gets a
      row of its own, for the same order and buyer, and one that some sweep has bound already stays on its row.
      No other row changes, and after it the transfer is on the row that is returned. */
  lemma BindsExactly(payments: seq<Payment>, c: Candidate, txid: Txid, received: nat, at: int)
    ensures var r := BindTx(payments, c, txid, received, at);
            var known := exists i: nat :: i < |payments| && payments[i].provider.Tron? && payments[i].txHash == Some(txid);
            if c.txHash.None? then
              && (r.Ok? <==> c.id < |payments| && payments[c.id].txHash.None? && !known)
              && (r.Ok? ==>
                    && r.value.id == c.id && |r.value.payments| == |payments|
                    && (forall i: nat | i < |payments| && i != c.id :: r.value.payments[i] == payments[i])
                    && var p := r.value.payments[c.id];
                       && p.txHash == Some(txid) && p.status.Confirming? && p.received == received
                       && p == payments[c.id].(txHash := p.txHash, status := p.status, received := received, topupReference := false))
            else
              && r.Ok?
              && (if known then r.value.payments == payments
                  else r.value.id == |payments|
                       && r.value.payments == payments + [Payment(Tron, c.row.order, c.row.user, received, Some(txid), Confirming, false,
                                                                  at, received, None)])
              && r.value.id < |r.value.payments| && r.value.payments[r.value.id].provider.Tron?
              && r.value.payments[r.value.id].txHash == Some(txid)
  {
    var taken := FindTx(payments, txid);
    if taken.Some? { assert payments[taken.value].txHash == Some(txid); }
  }

  // ---------------------------------------------------------------- the same, in place

  method ExpireStaleInvoices(db: Database, now: int)
    modifies db`payments
    ensures db.View() == old(db.View()).(payments := ExpireStaleTx(old(db.payments), now))
  {
    db.payments := ExpireStaleTx(db.payments, now);
  }

  method BindTransfer(db: Database, c: Candidate, txid: Txid, received: nat, at: int) returns (r: Result<Id>)
    modifies db`payments
    ensures var tx := BindTx(old(db.payments), c, txid, received, at);
            if tx.Ok? then r == Ok(tx.value.id) && db.View() == old(db.View()).(payments := tx.value.payments)
            else r == Err(tx.error) && db.View() == old(db.View())
  {
    var taken := FindTx(db.payments, txid);
    if c.txHash == None {
      if c.id >= |db.payments| || db.payments[c.id].txHash.Some? {
        return Err(StaleSettlement);
      }
      if taken.Some? {
        return Err(UniqueViolation);
      }
      db.payments := db.payments[c.id := db.payments[c.id].(txHash := Some(txid), status := PaymentStatus.Confirming,
                                                            received := received, topupReference := false)];
      return Ok(c.id);
    }
    if taken.Some? {
      return Ok(taken.value);
    }
    db.payments := db.payments + [FollowUp(c, txid, received, at)];
    return Ok(|db.payments| - 1);
  }

  method Claim(db: Database, p: Id, status: PaymentStatus, amount: int) returns (r: Result<()>)
    modifies db`payments
    ensures var claimed := ClaimPayment(old(db.payments), p, status, amount);
            if claimed.Ok? then r.Ok? && db.payments == claimed.value else r == Err(claimed.error) && db.payments == old(db.payments)
  {
    if p >= |db.payments| || !db.payments[p].status.Confirming? {
      return Err(StaleSettlement);
    }
    db.payments := db.payments[p := db.payments[p].(status := status, amount := amount)];
    return Ok(());
  }

  /** What a settlement that can find its order closed promises. */
  predicate CommitsSale(before: Db, after: Db, r: Result<bool>, tx: Result<Option<Db>>) {
    match tx
    case Err(e) => r == Err(e) && after == before
    case Ok(None) => r == Ok(false) && after == before
    case Ok(Some(sold)) => r == Ok(true) && after == sold
  }

  method SettleOrderPaid(db: Database, seen: Seen, expected: int, received: nat, txid: Txid, now: int) returns (r: Result<bool>)
    requires received >= expected
    modifies db
    ensures CommitsSale(old(db.View()), db.View(), r, OrderPaidTx(old(db.View()), seen, expected, received, txid, now))
  {
    var begin := db.View();
    if seen.row.order == None {
      return Ok(false);
    }
    var orders := SellOrder(db.orders, seen.row.order.value, expected, txid, now);
    if orders.None? {
      return Ok(false);
    }
    db.orders := orders.value;
    var claimed := Claim(db, seen.id, PaymentStatus.Paid, received);
    if claimed.Err? {
      db.Rollback(begin);
      return Err(claimed.error);
    }
    var surplusCents := UsdCents(received - expected);
    if surplusCents > 0 {
      var credited := CreditUser(db, TronEntry(seen, surplusCents, LedgerType.TopUp, OverpaidOf(seen.id)));
      if credited.Err? {
        db.Rollback(begin);
        return Err(credited.error);
      }
    }
    return Ok(true);
  }

  method SettleOrderCompleted(db: Database, seen: Seen, expected: int, received: nat, txid: Txid, now: int) returns (r: Result<bool>)
    requires received < expected
    modifies db
    ensures CommitsSale(old(db.View()), db.View(), r, OrderCompletedTx(old(db.View()), seen, expected, received, txid, now))
  {
    var begin := db.View();
    if seen.row.order == None {
      return Ok(false);
    }
    var o := seen.row.order.value;
    var neededCents := CeilCents(expected - received);
    var orders := SellOrder(db.orders, o, expected, txid, now);
    if orders.None? {
      return Ok(false);
    }
    db.orders := orders.value;
    var claimed := Claim(db, seen.id, PaymentStatus.Paid, received);
    if claimed.Err? {
      db.Rollback(begin);
      return Err(claimed.error);
    }
    var debited := DebitUser(db, TronEntry(seen, neededCents, LedgerType.Purchase, ReclaimOf(seen.id)));
    if debited.Err? {
      db.Rollback(begin);
      return Err(debited.error);
    }
    db.payments := CloseUnderpaid(db.payments, o);
    return Ok(true);
  }

  method SettleUnderpaid(db: Database, seen: Seen, expected: int, received: nat) returns (r: Result<()>)
    modifies db
    ensures Commits(old(db.View()), db.View(), r, UnderpaidTx(old(db.View()), seen, expected, received))
  {
    var begin := db.View();
    r := Claim(db, seen.id, PaymentStatus.Underpaid, expected);
    if r.Err? {
      return;
    }
    var creditedCents := UsdCents(received);
    if creditedCents > 0 {
      var credited := CreditUser(db, TronEntry(seen, creditedCents, LedgerType.TopUp, UnderpaidOf(seen.id)));
      if credited.Err? {
        db.Rollback(begin);
        return Err(credited.error);
      }
    }
  }

  method SettleLate(db: Database, seen: Seen, received: nat, txid: Txid) returns (r: Result<()>)
    modifies db
    ensures Commits(old(db.View()), db.View(), r, SettleLateTx(old(db.View()), seen, received, txid))
  {
    var begin := db.View();
    r := Claim(db, seen.id, PaymentStatus.Paid, received);
    if r.Err? {
      return;
    }
    var creditedCents := UsdCents(received);
    if creditedCents > 0 {
      var credited := CreditUser(db, TronEntry(seen, creditedCents, LedgerType.TopUp, LateOf(seen.id)));
      if credited.Err? {
        db.Rollback(begin);
        return Err(credited.error);
      }
    }
    if seen.row.order.Some? && seen.row.order.value < |db.orders| {
      var status := db.orders[seen.row.order.value].status;
      if status.Paid? || status.Delivering? || status.Delivered? {
        db.flagged := db.flagged + {txid};
      }
    }
  }

  method SettleTopup(db: Database, seen: Seen, received: nat) returns (r: Result<()>)
    modifies db
    ensures Commits(old(db.View()), db.View(), r, TopupTx(old(db.View()), seen, received))
  {
    var begin := db.View();
    r := Claim(db, seen.id, PaymentStatus.Paid, received);
    if r.Err? {
      return;
    }
    if UsdCents(received) > 0 {
      var credited := CreditUser(db, Entry(seen.row.user, UsdCents(received), LedgerType.TopUp, None, Some(seen.id), TopupOf(seen.id)));
      if credited.Err? {
        db.Rollback(begin);
        return Err(credited.error);
      }
    }
  }

  method Settle(db: Database, seen: Seen, expected: int, received: nat, txid: Txid, now: int, clock: int) returns (r: Result<()>)
    modifies db
    ensures Commits(old(db.View()), db.View(), r, SettleTx(old(db.View()), seen, expected, received, txid, now, clock))
  {
    if seen.row.order == None || seen.order == None {
      r := SettleTopup(db, seen, received);
      return;
    }
    if OrderClosed(seen.order, now) {
      r := SettleLate(db, seen, received, txid);
      return;
    }
    if received >= expected {
      var paid := SettleOrderPaid(db, seen, expected, received, txid, clock);
      if paid.Err? {
        return Err(paid.error);
      }
      if !paid.value {
        r := SettleLate(db, seen, received, txid);
        return;
      }
      return Ok(());
    }
    var priorCents := PriorUnderpaidCents(db.View(), seen.row.order.value);
    if received + priorCents * CENTS_TO_USDT6 >= expected {
      var completed := SettleOrderCompleted(db, seen, expected, received, txid, clock);
      if completed.Ok? {
        if !completed.value {
          r := SettleLate(db, seen, received, txid);
          return;
        }
        return Ok(());
      }
      if !completed.error.InsufficientBalance? {
        return Err(completed.error);
      }
    }
    r := SettleUnderpaid(db, seen, expected, received);
  }
}
