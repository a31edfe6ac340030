/** `settle` of chain-scan.worker.ts on the tables alone: which of its five outcomes a bound transfer has, and
    what that outcome leaves. */
module Outcomes {
  import opened Schema
  import opened Sums
  import opened LedgerBook
  import opened Money
  import opened Orders
  import TagProtocol
  import opened ChainScan
  import S = Settlement

  /** The transfer is on row `p`, and nobody has settled it. */
  predicate OnItsRow(db: Db, p: Id, txid: Txid) {
    p < |db.payments| && S.Carries(db.payments[p], txid) && db.payments[p].status.Confirming?
  }

  /** The row is of an order that is PENDING and whose time has not run out. */
  predicate Sellable(db: Db, p: Id, now: int)
    requires p < |db.payments|
  {
    var o := db.payments[p].order;
    o.Some? && o.value < |db.orders| && db.orders[o.value].status.Pending?
    && !(db.orders[o.value].expiresAt.Some? && db.orders[o.value].expiresAt.value < now)
  }

  /** The transfer is enough on its own, or with what earlier short ones have put on the balance, while that is
      still there. */
  predicate Covers(db: Db, p: Id, expected: int, received: nat)
    requires p < |db.payments| && db.payments[p].order.Some?
  {
    || received >= expected
    || (received + 10_000 * PriorUnderpaidCents(db, db.payments[p].order.value) >= expected
        && 10_000 * BalanceOf(db.ledger.rows, db.payments[p].user) >= expected - received)
  }

  predicate Sells(db: Db, p: Id, expected: int, received: nat, now: int)
    requires p < |db.payments|
  {
    Sellable(db, p, now) && Covers(db, p, expected, received)
  }

  /** What its payer's balance gains, in whole cents: all of it if it buys nothing, what is over if it buys the
      order, and what it lacks, rounded up, is taken. */
  function Gains(sells: bool, expected: int, received: nat): int {
    if !sells then received / 10_000
    else if received >= expected then (received - expected) / 10_000
    else 0 - (expected - received + 9_999) / 10_000
  }

  /** The one row it is in: a top-up, or a purchase if something is taken, about the payment and its order. */
  function GainRow(db: Db, p: Id, cents: int): Row
    requires p < |db.payments|
  {
    Row(db.payments[p].user, if cents < 0 then LedgerType.Purchase else LedgerType.TopUp, cents, db.payments[p].order, Some(p))
  }

  /** What becomes of an order that is sold, and of the order's short payments, which it makes good. */
  predicate OrdersAfter(db: Db, after: Db, p: Id, txid: Txid, expected: int, received: nat, now: int, clock: int)
    requires p < |db.payments|
  {
    if Sells(db, p, expected, received, now) then
      var o := db.payments[p].order.value;
      BecomesAlone(db.orders, after.orders, o,
                   db.orders[o].(status := OrderStatus.Paid, paidAt := Some(clock), externalId := Some(txid), tronAsk := Some(expected)))
    else after.orders == db.orders
  }

  predicate PaymentsAfter(db: Db, after: Db, p: Id, expected: int, received: nat, now: int)
    requires p < |db.payments|
  {
    var row, sells := db.payments[p], Sells(db, p, expected, received, now);
    && |after.payments| == |db.payments|
    && after.payments[p] == (if Sellable(db, p, now) && !sells then row.(status := Underpaid, amount := expected)
                             else row.(status := PaymentStatus.Paid, amount := received))
    && forall i: Id | i < |db.payments| && i != p ::
         after.payments[i] == if sells && received < expected && db.payments[i].provider.Tron? && db.payments[i].order == row.order
                                 && db.payments[i].status.Underpaid?
                              then db.payments[i].(status := PaymentStatus.Paid) else db.payments[i]
  }

  /** Money for an order that another rail has paid is for an operator to look at. */
  predicate FlagsAfter(db: Db, after: Db, p: Id, txid: Txid, now: int)
    requires p < |db.payments|
  {
    var o := db.payments[p].order;
    after.flagged == db.flagged + if o.Some? && o.value < |db.orders| && !Sellable(db, p, now) && Held(db.orders[o.value].status)
                                  then {txid} else {}
  }

  ghost predicate Ends(db: Db, after: Db, p: Id, txid: Txid, expected: int, received: nat, now: int, clock: int)
    requires p < |db.payments|
  {
    && after == db.(orders := after.orders, payments := after.payments, ledger := after.ledger, flagged := after.flagged)
    && OrdersAfter(db, after, p, txid, expected, received, now, clock)
    && PaymentsAfter(db, after, p, expected, received, now)
    && FlagsAfter(db, after, p, txid, now)
    && BooksOnly(db.ledger.rows, after.ledger.rows, GainRow(db, p, Gains(Sells(db, p, expected, received, now), expected, received)))
  }

  // ---------------------------------------------------------------- the bookings

  lemma CreditMoves(db: Db, chain: S.Amounts, p: Id, entry: Entry)
    requires S.Books(db, chain) && p < |db.payments| && db.payments[p].provider.Tron? && db.payments[p].status.Confirming?
    requires S.PaymentOfKey(entry.key) == Some(p) && entry.amountCents > 0 && BalanceOf(db.ledger.rows, entry.user) >= 0
    ensures var b := Booked(db.ledger, Credit(entry));
            b.Ok? && BooksOnly(db.ledger.rows, b.value.rows,
                              Row(entry.user, entry.kind, entry.amountCents, entry.order, entry.payment))
  {
    assert !S.Earned(db.payments, S.PaymentOfKey(entry.key));
    hide BalanceOf;
    PostMoves(db.ledger, Credit(entry));
    hide Post;
  }

  lemma DebitMoves(db: Db, chain: S.Amounts, p: Id, entry: Entry)
    requires S.Books(db, chain) && p < |db.payments| && db.payments[p].provider.Tron? && db.payments[p].status.Confirming?
    requires S.PaymentOfKey(entry.key) == Some(p) && entry.amountCents > 0
    ensures var b := Booked(db.ledger, Debit(entry));
            && (b.Ok? <==> BalanceOf(db.ledger.rows, entry.user) >= entry.amountCents)
            && (b.Err? ==> b.error.InsufficientBalance?)
            && (b.Ok? ==> BooksOnly(db.ledger.rows, b.value.rows,
                                     Row(entry.user, entry.kind, 0 - entry.amountCents, entry.order, entry.payment)))
  {
    assert !S.Earned(db.payments, S.PaymentOfKey(entry.key));
    hide BalanceOf;
    PostMoves(db.ledger, Debit(entry));
  }

  /** Dust is not booked. */
  lemma DustMoves(db: Db, chain: S.Amounts, p: Id, txid: Txid, cents: nat, key: Key)
    requires S.Books(db, chain) && OnItsRow(db, p, txid) && S.PaymentOfKey(key) == Some(p)
    requires BalanceOf(db.ledger.rows, db.payments[p].user) >= 0
    ensures var b := CreditDust(db.ledger, See(db, p), cents, key);
            b.Ok? && BooksOnly(db.ledger.rows, b.value.rows, GainRow(db, p, cents))
  {
    hide S.Books;
    if cents > 0 {
      CreditMoves(db, chain, p, TronEntry(See(db, p), cents, LedgerType.TopUp, key));
    }
    hide BalanceOf, Booked;
  }

  // ---------------------------------------------------------------- the five outcomes

  lemma TopupEnds(db: Db, chain: S.Amounts, p: Id, txid: Txid, expected: int, now: int, clock: int)
    requires S.Books(db, chain) && OnItsRow(db, p, txid) && BalanceOf(db.ledger.rows, db.payments[p].user) >= 0
    requires db.payments[p].order.None?
    ensures var tx := TopupTx(db, See(db, p), chain(txid));
            tx.Ok? && Ends(db, tx.value, p, txid, expected, chain(txid), now, clock)
  {
    var cents := UsdCents(chain(txid));
    if cents > 0 {
      CreditMoves(db, chain, p, Entry(db.payments[p].user, cents, LedgerType.TopUp, None, Some(p), TopupOf(p)));
    }
    hide S.Books, BalanceOf, Booked;
  }

  lemma LateEnds(db: Db, chain: S.Amounts, p: Id, txid: Txid, expected: int, now: int, clock: int)
    requires S.Books(db, chain) && OnItsRow(db, p, txid) && BalanceOf(db.ledger.rows, db.payments[p].user) >= 0
    requires db.payments[p].order.Some? && !Sellable(db, p, now)
    ensures var tx := SettleLateTx(db, See(db, p), chain(txid), txid);
            tx.Ok? && Ends(db, tx.value, p, txid, expected, chain(txid), now, clock)
  {
    hide BooksOnly, S.Books, BalanceOf;
    DustMoves(db, chain, p, txid, UsdCents(chain(txid)), LateOf(p));
    hide S.Books, BalanceOf, CreditDust;
  }

  lemma ShortEnds(db: Db, chain: S.Amounts, p: Id, txid: Txid, expected: int, now: int, clock: int)
    requires S.Books(db, chain) && OnItsRow(db, p, txid) && BalanceOf(db.ledger.rows, db.payments[p].user) >= 0
    requires Sellable(db, p, now) && !Covers(db, p, expected, chain(txid))
    ensures var tx := UnderpaidTx(db, See(db, p), expected, chain(txid));
            tx.Ok? && Ends(db, tx.value, p, txid, expected, chain(txid), now, clock)
  {
    hide BooksOnly, S.Books, BalanceOf;
    DustMoves(db, chain, p, txid, UsdCents(chain(txid)), UnderpaidOf(p));
    hide S.Books, BalanceOf, CreditDust, PriorUnderpaidCents;
  }

  lemma PaidEnds(db: Db, chain: S.Amounts, p: Id, txid: Txid, expected: int, now: int, clock: int)
    requires S.Books(db, chain) && OnItsRow(db, p, txid) && BalanceOf(db.ledger.rows, db.payments[p].user) >= 0
    requires Sellable(db, p, now) && chain(txid) >= expected
    ensures var tx := OrderPaidTx(db, See(db, p), expected, chain(txid), txid, clock);
            tx.Ok? && tx.value.Some? && Ends(db, tx.value.value, p, txid, expected, chain(txid), now, clock)
  {
    hide BooksOnly, S.Books, BalanceOf;
    DustMoves(db, chain, p, txid, UsdCents(chain(txid) - expected), OverpaidOf(p));
    hide S.Books, BalanceOf, CreditDust, PriorUnderpaidCents;
  }

  lemma CompletedEnds(db: Db, chain: S.Amounts, p: Id, txid: Txid, expected: int, now: int, clock: int)
    requires S.Books(db, chain) && OnItsRow(db, p, txid) && Sellable(db, p, now) && chain(txid) < expected
    ensures var tx, lacks := OrderCompletedTx(db, See(db, p), expected, chain(txid), txid, clock), expected - chain(txid);
            && (tx.Ok? <==> 10_000 * BalanceOf(db.ledger.rows, db.payments[p].user) >= lacks)
            && (tx.Err? ==> tx.error.InsufficientBalance?)
            && (tx.Ok? && Covers(db, p, expected, chain(txid)) ==>
                  tx.value.Some? && Ends(db, tx.value.value, p, txid, expected, chain(txid), now, clock))
  {
    hide BooksOnly, S.Books, BalanceOf;
    var seen, o, lacks := See(db, p), db.payments[p].order.value, expected - chain(txid);
    DebitMoves(db, chain, p, TronEntry(seen, CeilCents(lacks), LedgerType.Purchase, ReclaimOf(p)));
    S.ClosedRows(db.payments, p, chain(txid));
    ClosedExactly(db.payments[p := db.payments[p].(status := PaymentStatus.Paid, amount := chain(txid))], o);
    hide S.Books, S.PaymentGrows, BalanceOf, Booked, CloseUnderpaid, PriorUnderpaidCents;
  }

  lemma ClosedExactly(payments: seq<Payment>, o: Id)
    ensures var closed := CloseUnderpaid(payments, o);
            && |closed| == |payments|
            && forall i: Id | i < |payments| ::
                 closed[i] == if payments[i].provider.Tron? && payments[i].order == Some(o) && payments[i].status.Underpaid?
                              then payments[i].(status := PaymentStatus.Paid) else payments[i]
  {
  }

  /** What a bound transfer comes to, left alone. It buys its order if and only if the order is PENDING and in
      time and the transfer covers the ask, alone or with earlier credits that are still on the balance. Then
      the order is PAID as of now by this transfer, for this ask, and the short payments before it are closed.
      Otherwise nothing is sold; the row is UNDERPAID for the ask if the order could still be sold, and PAID if
      not. The money goes to the balance of the row's owner, to the cent, and to no other; and an operator is
      told exactly of money for an order that another rail has paid. */
  lemma SettleEnds(db: Db, chain: S.Amounts, p: Id, txid: Txid, expected: int, now: int, clock: int)
    requires S.Books(db, chain) && OnItsRow(db, p, txid) && BalanceOf(db.ledger.rows, db.payments[p].user) >= 0
    ensures var tx := SettleTx(db, See(db, p), expected, chain(txid), txid, now, clock);
            tx.Ok? && Ends(db, tx.value, p, txid, expected, chain(txid), now, clock)
  {
    var row := db.payments[p];
    assert S.RowOk(row, |db.orders|, chain);
    hide S.Books, Ends, BalanceOf, PriorUnderpaidCents, TopupTx, SettleLateTx, UnderpaidTx, OrderPaidTx, OrderCompletedTx;
    if row.order.None? {
      TopupEnds(db, chain, p, txid, expected, now, clock);
    } else if !Sellable(db, p, now) {
      LateEnds(db, chain, p, txid, expected, now, clock);
    } else if chain(txid) >= expected {
      PaidEnds(db, chain, p, txid, expected, now, clock);
    } else {
      CompletedEnds(db, chain, p, txid, expected, now, clock);
      if !Covers(db, p, expected, chain(txid)) {
        ShortEnds(db, chain, p, txid, expected, now, clock);
      }
    }
  }
}
