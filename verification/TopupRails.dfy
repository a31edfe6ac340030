/** The four top-up rails as a state machine: polls, webhooks, Stars updates and chain scans, each
    working from a copy of the payment that may be stale, interleaved and repeated at will. A poll may die
    between two of its statements. The rest of the shop may change orders in any way, settle the payment
    of an order, and book anything that is not about a top-up. */
module TopupRails {
  import opened Schema
  import opened Sums
  import opened LedgerBook
  import opened Money
  import opened Orders
  import opened ChainScan
  import S = Settlement
  import opened Topup

  /** What a poll still has to do for the payment it is at: close it because its order is over, or write
      the anomaly row of the payment it has just marked UNDERPAID. */
  datatype Duty = Resolve | Flag

  /** Remembered for the proofs: `overwritten`, the rows on which the poll's plain update to EXPIRED, or the
      webhook's to UNDERPAID, landed while they were PAID; `refused`, the rows a poll marked UNDERPAID; `lost`,
      those of them whose poll died before it wrote the anomaly row. */
  datatype Rails = Rails(db: Db, copies: map<nat, Seen>, duties: map<nat, Duty>,
                         overwritten: set<Id>, refused: set<Id>, lost: set<Id>)

  datatype Event =
    | Issue(row: Payment)
    | Read(process: nat, payment: Id)
    | PollPaid(process: nat, cents: Option<nat>, now: int)
    | Finish(process: nat)
    | PollExpired(process: nat)
    | Webhook(process: nat, cents: Option<nat>)
    | Stars(process: nat, receipt: StarsReceipt)
    | Arrive(payment: Id, txid: Txid, received: nat)
    | Scan(process: nat)
    | Book(call: Call)
    | OrderSettled(payment: Id)
    | Pipeline(orders: seq<Order>)
    | Crash(process: nat)

  predicate Has(s: Rails, p: nat, provider: Provider) {
    p in s.copies && s.copies[p].row.provider == provider
  }

  /** A plain update of row `i` has made it `db'`. */
  function Overwrites(s: Rails, i: Id, db': Db): Rails {
    s.(db := db',
       overwritten := if i < |s.db.payments| && s.db.payments[i].status.Paid? && db' != s.db then s.overwritten + {i} else s.overwritten)
  }

  /** The first statement of `markAmountMismatch`. */
  function Refuse(s: Rails, p: nat): Rails
    requires p in s.copies
  {
    var i := s.copies[p].id;
    if i >= |s.db.payments| || !Waiting(s.db.payments[i].status) then s
    else s.(db := Claimed(s.db, i, s.db.payments[i].(status := Underpaid)), duties := s.duties[p := Flag], refused := s.refused + {i})
  }

  /** The first transaction of `settlePaidInvoice` for a payment of an order. */
  function SellPolled(s: Rails, p: nat, now: int): Rails
    requires p in s.copies && s.copies[p].row.order.Some?
  {
    var sold, o := SellInvoiced(s.db, s.copies[p], now), s.copies[p].row.order.value;
    if sold.Some? then s.(db := sold.value)
    else if o < |s.db.orders| && ClosedForGood(s.db.orders[o].status) then s.(duties := s.duties[p := Resolve])
    else s
  }

  /** The second one, or the second statement of `markAmountMismatch`. */
  function DoDuty(s: Rails, p: nat): Rails
    requires p in s.copies && p in s.duties
  {
    s.(db := match s.duties[p]
             case Resolve => ResolveMismatchTx(s.db, s.copies[p], PaidOrderClosed)
             case Flag => Flagged(s.db, s.copies[p], AmountMismatch),
       duties := s.duties - {p})
  }

  function Crashed(s: Rails, p: nat): Rails {
    s.(copies := s.copies - {p}, duties := s.duties - {p},
       lost := if p in s.copies && p in s.duties && s.duties[p].Flag? then s.lost + {s.copies[p].id} else s.lost)
  }

  function Apply(s: Rails, e: Event): Rails {
    match e
    case Issue(row) => if row.status.Pending? && row.txHash.None? then s.(db := s.db.(payments := s.db.payments + [row])) else s
    case Read(p, i) => if i < |s.db.payments| && p !in s.duties then s.(copies := s.copies[p := See(s.db, i)]) else s
    case PollPaid(p, cents, now) =>
      if !Has(s, p, CryptoBot) || !Waiting(s.copies[p].row.status) || p in s.duties then s
      else if cents.None? || cents.value != s.copies[p].row.amount then Refuse(s, p)
      else if s.copies[p].row.order.Some? then SellPolled(s, p, now)
      else s.(db := Committed(s.db, SettlePaidInvoiceTx(s.db, s.copies[p], now)))
    case Finish(p) => if p in s.copies && p in s.duties then DoDuty(s, p) else s
    case PollExpired(p) =>
      if Has(s, p, CryptoBot) && s.copies[p].row.status.Pending? then Overwrites(s, s.copies[p].id, ExpirePolled(s.db, s.copies[p])) else s
    case Webhook(p, cents) =>
      if Has(s, p, CryptoBot) && s.copies[p].row.order.None? && s.copies[p].row.topupReference
      then Overwrites(s, s.copies[p].id, Committed(s.db, WebhookTx(s.db, s.copies[p], cents)))
      else s
    case Stars(p, receipt) =>
      if Has(s, p, Provider.Stars) && s.copies[p].row.order.None? && s.copies[p].row.topupReference
      then s.(db := Committed(s.db, SettleStarsTx(s.db, s.copies[p], receipt)))
      else s
    case Arrive(i, txid, received) =>
      if i < |s.db.payments| && s.db.payments[i].provider.Tron? && s.db.payments[i].txHash.None?
      then s.(db := Claimed(s.db, i, s.db.payments[i].(txHash := Some(txid), status := Confirming, received := received,
                                                       topupReference := false)))
      else s
    case Scan(p) =>
      if Has(s, p, Tron) && s.copies[p].row.status.Confirming? && s.copies[p].row.order.None? && s.copies[p].row.received >= 0
      then s.(db := Committed(s.db, TopupTx(s.db, s.copies[p], s.copies[p].row.received)))
      else s
    case Book(call) =>
      if !call.entry.key.TopupOf? && OfOrder(s.db, call.entry.payment) then s.(db := s.db.(ledger := Post(s.db.ledger, call).ledger)) else s
    case OrderSettled(i) =>
      if i < |s.db.payments| && s.db.payments[i].order.Some? && !s.db.payments[i].provider.Tron?
      then s.(db := Claimed(s.db, i, s.db.payments[i].(status := PaymentStatus.Paid)))
      else s
    case Pipeline(orders) => s.(db := s.db.(orders := orders))
    case Crash(p) => Crashed(s, p)
  }

  /** Other bookings: about no payment, or about the payment of an order. */
  predicate OfOrder(db: Db, p: Option<Id>) {
    p.Some? ==> p.value < |db.payments| && db.payments[p.value].order.Some?
  }

  function Run(s: Rails, events: seq<Event>): Rails
    decreases events
  {
    if events == [] then s else Run(Apply(s, events[0]), events[1..])
  }

  function Empty(): Rails {
    Rails(Db([], [], [], EMPTY_LEDGER, [], [], [], {}, []), map[], map[], {}, {}, {})
  }

  // ---------------------------------------------------------------- what holds of every row

  /** The whole cents a top-up is worth. */
  function Creditable(p: Payment): int {
    match p.provider
    case CryptoBot => p.amount
    case Stars => p.received
    case Tron => if p.received >= 0 then UsdCents(p.received) else 0
    case Balance => 0
  }

  /** Still known to be a top-up: linked to no order, and with its reference (TRON needs none). */
  predicate IsTopup(p: Payment) {
    p.order.None? && (p.topupReference || p.provider.Tron?)
  }

  /** One ledger row about payment `i`. */
  function AboutShare(i: Id): Row -> int {
    (r: Row) => if r.payment == Some(i) then 1 else 0
  }

  /** The ledger rows about payment `i`. */
  function RowsAbout(rows: seq<Row>, i: Id): int {
    Sum(rows, AboutShare(i))
  }

  predicate RowOk(p: Payment, l: Ledger, i: Id, overwritten: bool) {
    && (TopupOf(i) in l.records && !overwritten ==> p.status.Paid?)
    && (p.order.None? ==> RowsAbout(l.rows, i) == if TopupOf(i) in l.records then 1 else 0)
    && (TopupOf(i) in l.records ==> p.order.None? && Creditable(p) >= 1 && (p.provider.Tron? ==> p.status.Paid?))
    && (p.order.None? ==> S.PaymentTotal(l.rows, i) == if TopupOf(i) in l.records then Creditable(p) else 0)
    && (IsTopup(p) && p.status.Paid? && Creditable(p) >= 1 ==> TopupOf(i) in l.records)
    && (p.provider.Tron? ==> (p.txHash.None? ==> !p.status.Confirming? && !p.status.Paid?) && (p.txHash.Some? ==> p.received >= 0))
  }

  /** A row about a payment is about one there is, and for a top-up it is on its owner's balance. */
  predicate OwnersRow(payments: seq<Payment>, r: Row) {
    r.payment.Some? ==>
      r.payment.value < |payments|
      && (payments[r.payment.value].order.None? ==> r.user == payments[r.payment.value].user && r.kind.TopUp?)
  }

  predicate Linked(db: Db) {
    && (forall n: nat | n < |db.ledger.rows| :: OwnersRow(db.payments, db.ledger.rows[n]))
    && (forall k | k in db.ledger.records && k.TopupOf? :: k.payment < |db.payments| && db.ledger.records[k].LedgerRecord?)
  }

  /** What a copy still tells of its row. */
  predicate CopyOk(db: Db, seen: Seen) {
    && seen.id < |db.payments|
    && var row := db.payments[seen.id];
       && row.provider == seen.row.provider && row.order == seen.row.order && row.user == seen.row.user
       && (row.provider.CryptoBot? ==> row.amount == seen.row.amount)
       && (row.provider.Stars? ==> row.received == seen.row.received)
       && (row.provider.Tron? && seen.row.status.Confirming? ==> row.txHash.Some? && row.received == seen.row.received)
       && (seen.row.topupReference && !row.provider.Tron? ==> row.topupReference || !Waiting(row.status))
       && (Plain(seen) ==> !row.topupReference)
  }

  /** Read as waiting and without a reference: it never had one. */
  predicate Plain(seen: Seen) {
    !seen.row.topupReference && Waiting(seen.row.status) && !seen.row.provider.Tron?
  }

  /** A payment is put on an operator's timeline at most once, by the step that takes it out of the poll. */
  predicate FlaggedOnce(db: Db) {
    && (forall n: nat | n < |db.anomalies| ::
          var p := db.anomalies[n].payment;
          p < |db.payments| && !db.payments[p].provider.Tron? && !Waiting(db.payments[p].status))
    && (forall m: nat, n: nat | m < |db.anomalies| && n < |db.anomalies| && db.anomalies[m].payment == db.anomalies[n].payment :: m == n)
  }

  predicate OnTimeline(anomalies: seq<Anomaly>, i: Id) {
    exists n: nat :: n < |anomalies| && anomalies[n].payment == i
  }

  /** Some poll is about to write the anomaly row of payment `i`. */
  predicate Owed(copies: map<nat, Seen>, duties: map<nat, Duty>, i: Id) {
    exists p :: p in duties && p in copies && duties[p].Flag? && copies[p].id == i
  }

  /** Duties are those of polls, about rows marked UNDERPAID that are not on the timeline yet, and no two
      polls owe the same anomaly row. */
  predicate DutiesOk(s: Rails) {
    && (forall p | p in s.duties ::
          && p in s.copies && s.copies[p].row.provider.CryptoBot? && Waiting(s.copies[p].row.status)
          && (s.duties[p].Resolve? ==> s.copies[p].row.order.Some?)
          && (s.duties[p].Flag? ==> s.copies[p].id in s.refused && !OnTimeline(s.db.anomalies, s.copies[p].id)))
    && (forall p, q | p in s.duties && q in s.duties && s.duties[p].Flag? && s.duties[q].Flag? && s.copies[p].id == s.copies[q].id ::
          p == q)
  }

  /** A refused payment is out of the poll, and an operator is told, or about to be, unless that got lost. */
  predicate RefusedOk(s: Rails) {
    && s.lost <= s.refused
    && forall i | i in s.refused ::
         && i < |s.db.payments| && !s.db.payments[i].provider.Tron? && !Waiting(s.db.payments[i].status)
         && (i in s.lost <==> !OnTimeline(s.db.anomalies, i) && !Owed(s.copies, s.duties, i))
  }

  predicate Told(s: Rails) {
    FlaggedOnce(s.db) && DutiesOk(s) && RefusedOk(s)
  }

  predicate RowsOk(db: Db, overwritten: set<Id>) {
    Linked(db) && forall i: Id | i < |db.payments| :: RowOk(db.payments[i], db.ledger, i, i in overwritten)
  }

  predicate Inv(s: Rails) {
    RowsOk(s.db, s.overwritten) && Told(s) && CopiesOk(s.db, s.copies)
  }

  predicate CopiesOk(db: Db, copies: map<nat, Seen>) {
    && (forall p | p in copies :: CopyOk(db, copies[p]))
    && (forall p, q | p in copies && q in copies && copies[p].id == copies[q].id && Plain(copies[p]) ::
          copies[q].row.provider.Tron? || !copies[q].row.topupReference)
  }

  // ---------------------------------------------------------------- one row at a time

  /** What a step may do to row `i`, and to no other: book at most its credit, and flag it at most when that
      takes it out of the poll. */
  predicate Touches(s: Rails, s': Rails, i: Id) {
    && i < |s.db.payments| == |s'.db.payments| && s'.db.payments == s.db.payments[i := s'.db.payments[i]]
    && s'.copies == s.copies && s'.duties == s.duties && s'.refused == s.refused && s'.lost == s.lost
    && (s'.overwritten == s.overwritten || s'.overwritten == s.overwritten + {i})
    && (s'.db.ledger == s.db.ledger
        || (Books(s.db.ledger, s'.db.ledger, i) && s'.db.ledger.rows[|s.db.ledger.rows|].user == s.db.payments[i].user
            && s'.db.ledger.rows[|s.db.ledger.rows|].kind.TopUp?))
    && s'.db.payments[i].provider == s.db.payments[i].provider && s'.db.payments[i].user == s.db.payments[i].user
    && s'.db.payments[i].order == s.db.payments[i].order
    && (Waiting(s'.db.payments[i].status) ==> Waiting(s.db.payments[i].status) || s.db.payments[i].provider.Tron?)
    && (s'.db.anomalies == s.db.anomalies
        || (|s'.db.anomalies| == |s.db.anomalies| + 1 && s'.db.anomalies[..|s.db.anomalies|] == s.db.anomalies
            && s'.db.anomalies[|s.db.anomalies|].payment == i
            && Waiting(s.db.payments[i].status) && !Waiting(s'.db.payments[i].status) && !s.db.payments[i].provider.Tron?))
  }

  /** Booking the credit of row `i` leaves what the ledger says of row `j`. */
  lemma OtherRow(row: Payment, l: Ledger, l': Ledger, i: Id, j: Id, overwritten: bool)
    requires RowOk(row, l, j, overwritten) && i != j && (l' == l || Books(l, l', i))
    ensures RowOk(row, l', j, overwritten)
  {
    if l' != l {
      SumAppend(l.rows, l'.rows[|l.rows|], S.PaymentShare(j));
      SumAppend(l.rows, l'.rows[|l.rows|], AboutShare(j));
    }
  }

  lemma RowStep(s: Rails, s': Rails, i: Id)
    requires Inv(s) && Touches(s, s', i) && RowOk(s'.db.payments[i], s'.db.ledger, i, i in s'.overwritten)
    requires forall p | p in s.copies && s.copies[p].id == i :: CopyOk(s'.db, s.copies[p])
    ensures Inv(s')
  {
    TouchFlags(s, s', i);
    TouchRefused(s, s', i);
    hide RowOk, FlaggedOnce, DutiesOk, RefusedOk;
    forall j: Id | j < |s'.db.payments| ensures RowOk(s'.db.payments[j], s'.db.ledger, j, j in s'.overwritten) {
      if j != i {
        OtherRow(s.db.payments[j], s.db.ledger, s'.db.ledger, i, j, j in s.overwritten);
      }
    }
    CopiesStep(s.db, s'.db, s.copies, i);
    hide CopiesOk;
  }

  lemma CopiesStep(db: Db, db': Db, copies: map<nat, Seen>, i: Id)
    requires CopiesOk(db, copies) && i < |db.payments| == |db'.payments| && db'.payments == db.payments[i := db'.payments[i]]
    requires forall p | p in copies && copies[p].id == i :: CopyOk(db', copies[p])
    ensures CopiesOk(db', copies)
  {
    forall p | p in copies ensures CopyOk(db', copies[p]) {
      assert CopyOk(db, copies[p]);
    }
  }

  lemma TouchFlags(s: Rails, s': Rails, i: Id)
    requires FlaggedOnce(s.db) && Touches(s, s', i)
    ensures FlaggedOnce(s'.db)
  {
  }

  /** A new anomaly row about `i` puts no other payment on the timeline. */
  lemma OthersOnTimeline(anomalies: seq<Anomaly>, anomaly: Anomaly, i: Id)
    ensures OnTimeline(anomalies + [anomaly], i) <==> OnTimeline(anomalies, i) || anomaly.payment == i
  {
    var longer := anomalies + [anomaly];
    if anomaly.payment == i { assert longer[|anomalies|].payment == i; }
    if OnTimeline(anomalies, i) {
      var n: nat :| n < |anomalies| && anomalies[n].payment == i;
      assert longer[n].payment == i;
    }
  }

  /** A row that was waiting is not one a poll has refused. */
  lemma TouchRefused(s: Rails, s': Rails, i: Id)
    requires DutiesOk(s) && RefusedOk(s) && Touches(s, s', i)
    ensures DutiesOk(s') && RefusedOk(s')
  {
    hide OnTimeline, Owed, Books;
    forall j | j in s.refused ensures OnTimeline(s'.db.anomalies, j) <==> OnTimeline(s.db.anomalies, j) {
      if s'.db.anomalies != s.db.anomalies {
        assert s'.db.anomalies == s.db.anomalies + [s'.db.anomalies[|s.db.anomalies|]];
        OthersOnTimeline(s.db.anomalies, s'.db.anomalies[|s.db.anomalies|], j);
      }
    }
  }

  predicate Books(l: Ledger, l': Ledger, i: Id) {
    && |l'.rows| == |l.rows| + 1 && l'.rows == l.rows + [l'.rows[|l.rows|]] && l'.rows[|l.rows|].payment == Some(i)
    && TopupOf(i) in l'.records && l'.records[TopupOf(i)].LedgerRecord?
    && l'.records == l.records[TopupOf(i) := l'.records[TopupOf(i)]]
  }

  /** The claim and the credit of a top-up: the ledger row exists already, or is written now. */
  lemma CreditOnce(s: Rails, i: Id, row: Payment, user: Id)
    requires Inv(s) && i < |s.db.payments| && row.order.None? && s.db.payments[i].order.None?
    requires row.provider == s.db.payments[i].provider && Creditable(row) == Creditable(s.db.payments[i])
    requires row.status.Paid? && row.txHash == s.db.payments[i].txHash && row.received == s.db.payments[i].received
    requires row.provider.Tron? ==> row.txHash.Some?
    ensures var tx := Credited(Claimed(s.db, i, row), i, user, Creditable(row));
            tx.Ok? ==>
              && tx.value == Claimed(s.db, i, row).(ledger := tx.value.ledger)
              && (tx.value.ledger == s.db.ledger
                  || (Books(s.db.ledger, tx.value.ledger, i) && tx.value.ledger.rows[|s.db.ledger.rows|].user == user
                      && tx.value.ledger.rows[|s.db.ledger.rows|].kind.TopUp?))
              && RowOk(row, tx.value.ledger, i, i in s.overwritten) && Creditable(row) >= 1 && TopupOf(i) in tx.value.ledger.records
  {
    var tx := Credited(Claimed(s.db, i, row), i, user, Creditable(row));
    assert RowOk(s.db.payments[i], s.db.ledger, i, i in s.overwritten);
    if tx.Ok? && tx.value.ledger != s.db.ledger {
      SumAppend(s.db.ledger.rows, tx.value.ledger.rows[|s.db.ledger.rows|], S.PaymentShare(i));
      SumAppend(s.db.ledger.rows, tx.value.ledger.rows[|s.db.ledger.rows|], AboutShare(i));
    }
  }

  // ---------------------------------------------------------------- every step, every run

  /** A row that is written without a credit. */
  lemma StatusStep(s: Rails, s': Rails, i: Id)
    requires Inv(s) && Touches(s, s', i) && s'.db.ledger == s.db.ledger
    requires var a, b := s.db.payments[i], s'.db.payments[i];
             && b == a.(status := b.status, topupReference := b.topupReference) && !b.provider.Tron?
             && !Waiting(b.status) && (b.topupReference ==> a.topupReference)
             && (IsTopup(b) ==> !b.status.Paid?)
             && (a.status.Paid? && !b.status.Paid? ==> i in s'.overwritten)
    ensures Inv(s')
  {
    assert RowOk(s.db.payments[i], s.db.ledger, i, i in s.overwritten);
    forall p | p in s.copies && s.copies[p].id == i ensures CopyOk(s'.db, s.copies[p]) {
      assert CopyOk(s.db, s.copies[p]);
    }
    RowStep(s, s', i);
  }

  /** A settlement from a copy that knows the payment for a top-up. */
  lemma CreditStep(s: Rails, p: nat, row: Payment)
    requires Inv(s) && p in s.copies && s.copies[p].row.order.None? && s.copies[p].row.topupReference && !s.copies[p].row.provider.Tron?
    requires s.copies[p].id < |s.db.payments|
    requires row == s.db.payments[s.copies[p].id].(status := PaymentStatus.Paid, topupReference := row.topupReference) && row.topupReference
    ensures var tx := Credited(Claimed(s.db, s.copies[p].id, row), s.copies[p].id, s.copies[p].row.user, Creditable(row));
            Inv(s.(db := Committed(s.db, tx)))
  {
    var i := s.copies[p].id;
    assert CopyOk(s.db, s.copies[p]);
    CreditOnce(s, i, row, s.copies[p].row.user);
    var tx := Credited(Claimed(s.db, i, row), i, s.copies[p].row.user, Creditable(row));
    if tx.Ok? {
      forall q | q in s.copies && s.copies[q].id == i ensures CopyOk(tx.value, s.copies[q]) {
        assert CopyOk(s.db, s.copies[q]);
      }
      hide RowOk, CopyOk, Credited;
      RowStep(s, s.(db := tx.value), i);
    }
  }

  lemma PollKeeps(s: Rails, p: nat, cents: Option<nat>, now: int)
    requires Inv(s)
    ensures Inv(Apply(s, PollPaid(p, cents, now)))
  {
    hide Inv, ResolveMismatchTx, SellInvoiced, SettleMissedTopupTx, Refuse, SellPolled;
    if Has(s, p, CryptoBot) && Waiting(s.copies[p].row.status) && p !in s.duties {
      var seen := s.copies[p];
      if cents.None? || cents.value != seen.row.amount {
        RefuseKeeps(s, p);
      } else if seen.row.order.Some? {
        SellKeeps(s, p, now);
      } else {
        MissedKeeps(s, p);
        if !seen.row.topupReference {
          ResolveKeeps(s, p, PaidNoOrder);
        }
      }
    }
  }

  /** A poll that has just marked a row UNDERPAID owes its anomaly row. */
  lemma NewDuty(s: Rails, p: nat)
    requires DutiesOk(s) && RefusedOk(s) && Has(s, p, CryptoBot) && Waiting(s.copies[p].row.status) && p !in s.duties
    requires var i := s.copies[p].id;
             && i < |s.db.payments| && !s.db.payments[i].provider.Tron? && !Waiting(s.db.payments[i].status)
             && i !in s.refused && !OnTimeline(s.db.anomalies, i)
    ensures var s' := s.(duties := s.duties[p := Flag], refused := s.refused + {s.copies[p].id});
            DutiesOk(s') && RefusedOk(s')
  {
    var i, s' := s.copies[p].id, s.(duties := s.duties[p := Flag], refused := s.refused + {s.copies[p].id});
    hide OnTimeline;
    assert Owed(s'.copies, s'.duties, i) by { assert s'.duties[p].Flag?; }
    forall j | j in s.refused ensures Owed(s'.copies, s'.duties, j) <==> Owed(s.copies, s.duties, j) {
      if Owed(s.copies, s.duties, j) {
        var q :| q in s.duties && q in s.copies && s.duties[q].Flag? && s.copies[q].id == j;
        assert s'.duties[q].Flag?;
      }
    }
    hide Owed;
  }

  lemma RefuseKeeps(s: Rails, p: nat)
    requires Inv(s) && Has(s, p, CryptoBot) && Waiting(s.copies[p].row.status) && p !in s.duties
    ensures Inv(Refuse(s, p))
  {
    var i := s.copies[p].id;
    assert CopyOk(s.db, s.copies[p]);
    if Waiting(s.db.payments[i].status) {
      assert !OnTimeline(s.db.anomalies, i) && i !in s.refused;
      var marked := s.(db := Claimed(s.db, i, s.db.payments[i].(status := Underpaid)));
      StatusStep(s, marked, i);
      hide RowOk, CopyOk, FlaggedOnce, CopiesOk, OnTimeline, DutiesOk, RefusedOk;
      NewDuty(marked, p);
    }
  }

  /** A poll that has nothing to write about any row comes or goes. */
  lemma ResolveDuty(s: Rails, s': Rails, p: nat)
    requires DutiesOk(s) && RefusedOk(s) && p in s.copies && (p in s.duties ==> s.duties[p].Resolve?)
    requires s' == s.(duties := s'.duties)
    requires s'.duties == s.duties - {p} || (s'.duties == s.duties[p := Resolve] && s.copies[p].row.provider.CryptoBot?
                                             && Waiting(s.copies[p].row.status) && s.copies[p].row.order.Some?)
    ensures DutiesOk(s') && RefusedOk(s')
  {
    forall j ensures Owed(s'.copies, s'.duties, j) <==> Owed(s.copies, s.duties, j) {
      if Owed(s.copies, s.duties, j) {
        var q :| q in s.duties && q in s.copies && s.duties[q].Flag? && s.copies[q].id == j;
        assert s'.duties[q].Flag?;
      }
    }
    hide Owed, OnTimeline;
  }

  lemma SellKeeps(s: Rails, p: nat, now: int)
    requires Inv(s) && Has(s, p, CryptoBot) && Waiting(s.copies[p].row.status) && p !in s.duties && s.copies[p].row.order.Some?
    ensures Inv(SellPolled(s, p, now))
  {
    PollOrderKeeps(s, p, now);
    if SellInvoiced(s.db, s.copies[p], now).None? && SellPolled(s, p, now) != s {
      ResolveDuty(s, SellPolled(s, p, now), p);
      hide RowOk, CopiesOk, FlaggedOnce, DutiesOk, RefusedOk;
    }
  }

  lemma FinishKeeps(s: Rails, p: nat)
    requires Inv(s) && p in s.copies && p in s.duties
    ensures Inv(DoDuty(s, p))
  {
    if s.duties[p].Resolve? {
      ResolveFinishes(s, p);
    } else {
      FlagFinishes(s, p);
    }
  }

  lemma ResolveFinishes(s: Rails, p: nat)
    requires Inv(s) && p in s.copies && p in s.duties && s.duties[p].Resolve?
    ensures Inv(DoDuty(s, p))
  {
    assert Has(s, p, CryptoBot) && Waiting(s.copies[p].row.status) && s.copies[p].row.order.Some?;
    hide RowsOk, CopiesOk, FlaggedOnce, DutiesOk, RefusedOk, ResolveMismatchTx;
    ResolveKeeps(s, p, PaidOrderClosed);
    var resolved := s.(db := ResolveMismatchTx(s.db, s.copies[p], PaidOrderClosed));
    ResolveDuty(resolved, DoDuty(s, p), p);
  }

  lemma FlagFinishes(s: Rails, p: nat)
    requires Inv(s) && p in s.copies && p in s.duties && s.duties[p].Flag?
    ensures Inv(DoDuty(s, p))
  {
    hide RowOk, FlaggedOnce, DutiesOk, RefusedOk, CopiesOk;
    FlagKeeps(s, p);
    SamePayments(s.db, DoDuty(s, p).db, s.copies);
  }

  lemma SamePayments(db: Db, db': Db, copies: map<nat, Seen>)
    requires CopiesOk(db, copies) && db'.payments == db.payments
    ensures CopiesOk(db', copies)
  {
    hide Plain;
    forall p | p in copies ensures CopyOk(db', copies[p]) {
      assert CopyOk(db, copies[p]);
    }
  }

  lemma OwedAfter(copies: map<nat, Seen>, duties: map<nat, Duty>, p: nat, j: Id)
    requires p in duties && p in copies && copies[p].id != j
    ensures Owed(copies, duties - {p}, j) <==> Owed(copies, duties, j)
    ensures Owed(copies - {p}, duties - {p}, j) <==> Owed(copies, duties, j)
  {
    if Owed(copies, duties, j) {
      var q :| q in duties && q in copies && duties[q].Flag? && copies[q].id == j;
      assert q in duties - {p} && q in copies - {p};
    }
  }

  /** The anomaly row that was owed is written, and owed no more. */
  lemma FlagKeeps(s: Rails, p: nat)
    requires FlaggedOnce(s.db) && DutiesOk(s) && RefusedOk(s) && p in s.copies && p in s.duties && s.duties[p].Flag?
    ensures FlaggedOnce(DoDuty(s, p).db) && DutiesOk(DoDuty(s, p)) && RefusedOk(DoDuty(s, p))
  {
    var i, s' := s.copies[p].id, DoDuty(s, p);
    assert Owed(s.copies, s.duties, i);
    assert FlaggedOnce(s'.db) by {
      assert forall n: nat | n < |s.db.anomalies| :: s.db.anomalies[n].payment != i;
    }
    hide FlaggedOnce, OnTimeline, Owed;
    forall j ensures OnTimeline(s'.db.anomalies, j) <==> OnTimeline(s.db.anomalies, j) || j == i {
      OthersOnTimeline(s.db.anomalies, s'.db.anomalies[|s.db.anomalies|], j);
    }
    forall j | j != i ensures Owed(s'.copies, s'.duties, j) <==> Owed(s.copies, s.duties, j) {
      OwedAfter(s.copies, s.duties, p, j);
    }
  }

  lemma CrashKeeps(s: Rails, p: nat)
    requires Inv(s)
    ensures Inv(Crashed(s, p))
  {
    hide RowsOk, Told, CopyOk, Plain;
    CrashTold(s, p);
  }

  lemma CrashTold(s: Rails, p: nat)
    requires Told(s)
    ensures Told(Crashed(s, p))
  {
    var s' := Crashed(s, p);
    hide FlaggedOnce, OnTimeline;
    if p in s.copies && p in s.duties && s.duties[p].Flag? {
      var i := s.copies[p].id;
      assert !Owed(s'.copies, s'.duties, i);
      forall j | j != i ensures Owed(s'.copies, s'.duties, j) <==> Owed(s.copies, s.duties, j) {
        OwedAfter(s.copies, s.duties, p, j);
      }
    } else {
      forall j ensures Owed(s'.copies, s'.duties, j) <==> Owed(s.copies, s.duties, j) {
        if Owed(s.copies, s.duties, j) {
          var q :| q in s.duties && q in s.copies && s.duties[q].Flag? && s.copies[q].id == j;
          assert q in s'.duties && q in s'.copies;
        }
      }
    }
    hide Owed;
  }

  /** Closed as PAID without a credit: a payment of an order, or one that never had a reference. */
  lemma ResolveKeeps(s: Rails, p: nat, kind: AnomalyKind)
    requires Inv(s) && Has(s, p, CryptoBot) && Waiting(s.copies[p].row.status)
    requires s.copies[p].row.order.Some? || !s.copies[p].row.topupReference
    ensures Inv(s.(db := ResolveMismatchTx(s.db, s.copies[p], kind)))
  {
    var seen, s' := s.copies[p], s.(db := ResolveMismatchTx(s.db, s.copies[p], kind));
    assert CopyOk(s.db, seen);
    if Waiting(s.db.payments[seen.id].status) {
      assert seen.row.order.None? ==> Plain(seen);
      StatusStep(s, s', seen.id);
    }
  }

  lemma MissedKeeps(s: Rails, p: nat)
    requires Inv(s) && Has(s, p, CryptoBot)
    ensures s.copies[p].row.order.None? && s.copies[p].row.topupReference ==>
              Inv(s.(db := Committed(s.db, SettleMissedTopupTx(s.db, s.copies[p]))))
  {
    var seen := s.copies[p];
    assert CopyOk(s.db, seen);
    if seen.row.order.None? && seen.row.topupReference && Waiting(s.db.payments[seen.id].status) {
      hide RowOk, Credited;
      CreditStep(s, p, s.db.payments[seen.id].(status := PaymentStatus.Paid));
    }
  }

  lemma PollOrderKeeps(s: Rails, p: nat, now: int)
    requires Inv(s) && Has(s, p, CryptoBot)
    ensures var sold := SellInvoiced(s.db, s.copies[p], now);
            sold.Some? ==> Inv(s.(db := sold.value))
  {
    var seen := s.copies[p];
    assert CopyOk(s.db, seen);
    var sold := SellInvoiced(s.db, seen, now);
    if sold.Some? {
      StatusStep(s, s.(db := sold.value), seen.id);
    }
  }

  lemma WebhookKeeps(s: Rails, p: nat, cents: Option<nat>)
    requires Inv(s)
    ensures Inv(Apply(s, Webhook(p, cents)))
  {
    if Has(s, p, CryptoBot) && s.copies[p].row.order.None? && s.copies[p].row.topupReference {
      var seen := s.copies[p];
      assert CopyOk(s.db, seen);
      hide RowOk, Credited;
      if seen.row.status.Paid? {
      } else if cents.None? || cents.value != seen.row.amount {
        StatusStep(s, Apply(s, Webhook(p, cents)), seen.id);
      } else {
        CreditStep(s, p, s.db.payments[seen.id].(status := PaymentStatus.Paid, topupReference := true));
        assert s.db.payments[seen.id].status.Paid? ==> SettleCryptoBotTx(s.db, seen, cents.value) == Ok(s.db);
      }
      hide Linked, CopyOk, FlaggedOnce;
    }
  }

  lemma StarsKeeps(s: Rails, p: nat, receipt: StarsReceipt)
    requires Inv(s)
    ensures Inv(Apply(s, Event.Stars(p, receipt)))
  {
    if Has(s, p, Provider.Stars) && s.copies[p].row.order.None? && s.copies[p].row.topupReference {
      var seen := s.copies[p];
      assert CopyOk(s.db, seen);
      var row := s.db.payments[seen.id];
      hide RowOk, Credited, Honours;
      CreditStep(s, p, row.(status := PaymentStatus.Paid, topupReference := true));
      hide Linked, CopyOk, FlaggedOnce;
    }
  }

  /** What a settled TRON top-up leaves of its row. */
  lemma ScanRow(s: Rails, p: nat)
    requires Inv(s)
    ensures var s' := Apply(s, Event.Scan(p));
            s' != s ==>
              && p in s.copies && Touches(s, s', s.copies[p].id)
              && var a, b := s.db.payments[s.copies[p].id], s'.db.payments[s.copies[p].id];
                 && b == a.(status := b.status, amount := b.amount) && a.provider.Tron?
                 && RowOk(b, s'.db.ledger, s.copies[p].id, s.copies[p].id in s.overwritten)
  {
    hide Told, Plain, FlaggedOnce, Linked;
    var s' := Apply(s, Event.Scan(p));
    if s' != s {
      var seen := s.copies[p];
      assert CopyOk(s.db, seen) && RowOk(s.db.payments[seen.id], s.db.ledger, seen.id, seen.id in s.overwritten);
      var row := s.db.payments[seen.id].(status := PaymentStatus.Paid, amount := seen.row.received);
      var cents := UsdCents(seen.row.received);
      hide CopiesOk;
      assert TopupTx(s.db, seen, seen.row.received)
             == if cents > 0 then Credited(Claimed(s.db, seen.id, row), seen.id, seen.row.user, cents) else Ok(Claimed(s.db, seen.id, row));
      hide TopupTx, Credited, UsdCents;
      if cents > 0 {
        CreditOnce(s, seen.id, row, seen.row.user);
        hide RowOk;
      }
    }
  }

  lemma ScanKeeps(s: Rails, p: nat)
    requires Inv(s)
    ensures Inv(Apply(s, Event.Scan(p)))
  {
    var s' := Apply(s, Event.Scan(p));
    ScanRow(s, p);
    hide Apply, RowOk, Told;
    if s' != s {
      var i := s.copies[p].id;
      forall q | q in s.copies && s.copies[q].id == i ensures CopyOk(s'.db, s.copies[q]) {
        assert CopyOk(s.db, s.copies[q]);
      }
      RowStep(s, s', i);
    }
  }

  lemma ArriveKeeps(s: Rails, i: Id, txid: Txid, received: nat)
    requires Inv(s)
    ensures Inv(Apply(s, Arrive(i, txid, received)))
  {
    var s' := Apply(s, Arrive(i, txid, received));
    if s' != s {
      assert RowOk(s.db.payments[i], s.db.ledger, i, i in s.overwritten);
      forall q | q in s.copies && s.copies[q].id == i ensures CopyOk(s'.db, s.copies[q]) {
        assert CopyOk(s.db, s.copies[q]);
      }
      RowStep(s, s', i);
    }
  }

  /** A new row changes nothing for the copies and duties there are. */
  lemma IssueTold(s: Rails, row: Payment)
    requires Told(s) && CopiesOk(s.db, s.copies)
    ensures var s' := s.(db := s.db.(payments := s.db.payments + [row]));
            Told(s') && CopiesOk(s'.db, s'.copies)
  {
    var s' := s.(db := s.db.(payments := s.db.payments + [row]));
    hide OnTimeline, Owed, Plain;
    forall p | p in s.copies ensures CopyOk(s'.db, s.copies[p]) {
      assert CopyOk(s.db, s.copies[p]);
    }
  }

  lemma IssueKeeps(s: Rails, row: Payment)
    requires Inv(s)
    ensures Inv(Apply(s, Issue(row)))
  {
    var s' := Apply(s, Issue(row));
    if s' != s {
      hide Told, CopiesOk;
      IssueTold(s, row);
      forall r | r in s.db.ledger.rows ensures S.PaymentShare(|s.db.payments|)(r) == 0 && AboutShare(|s.db.payments|)(r) == 0 {
        var n: nat :| n < |s.db.ledger.rows| && s.db.ledger.rows[n] == r;
      }
      SumZero(s.db.ledger.rows, S.PaymentShare(|s.db.payments|));
      SumZero(s.db.ledger.rows, AboutShare(|s.db.payments|));
      forall i: Id | i < |s'.db.payments| ensures RowOk(s'.db.payments[i], s'.db.ledger, i, i in s'.overwritten) {
        if i < |s.db.payments| { assert RowOk(s.db.payments[i], s.db.ledger, i, i in s.overwritten); }
      }
    }
  }

  lemma FreshCopy(db: Db, copies: map<nat, Seen>, p: nat, i: Id)
    requires CopiesOk(db, copies) && i < |db.payments|
    requires db.payments[i].provider.Tron? && db.payments[i].status.Confirming? ==> db.payments[i].txHash.Some?
    ensures CopiesOk(db, copies[p := See(db, i)])
  {
    forall q | q in copies ensures CopyOk(db, copies[q]) {
    }
  }

  lemma CopyOwesNothing(s: Rails, p: nat, seen: Seen)
    requires Told(s) && p !in s.duties
    ensures Told(s.(copies := s.copies[p := seen]))
  {
    hide FlaggedOnce, OnTimeline;
    var copies := s.copies[p := seen];
    forall j ensures Owed(copies, s.duties, j) <==> Owed(s.copies, s.duties, j) {
      if Owed(s.copies, s.duties, j) {
        var q :| q in s.duties && q in s.copies && s.duties[q].Flag? && s.copies[q].id == j;
        assert copies[q].id == j;
      }
    }
    hide Owed;
  }

  lemma ReadKeeps(s: Rails, p: nat, i: Id)
    requires Inv(s)
    ensures Inv(Apply(s, Read(p, i)))
  {
    if i < |s.db.payments| && p !in s.duties {
      assert RowOk(s.db.payments[i], s.db.ledger, i, i in s.overwritten);
      hide RowsOk, CopiesOk, Told;
      FreshCopy(s.db, s.copies, p, i);
      CopyOwesNothing(s, p, See(s.db, i));
    }
  }

  /** What is said of the payments' statuses and of the anomaly rows reads neither ledger nor orders. */
  lemma SameRows(s: Rails, s': Rails)
    requires Told(s) && CopiesOk(s.db, s.copies) && s' == s.(db := s'.db)
    requires s'.db.payments == s.db.payments && s'.db.anomalies == s.db.anomalies
    ensures Told(s') && CopiesOk(s'.db, s'.copies)
  {
    hide OnTimeline, Owed, CopiesOk;
    SamePayments(s.db, s'.db, s.copies);
  }

  /** A booking about no payment, or about the payment of an order. */
  lemma BookRow(row: Payment, l: Ledger, call: Call, i: Id, overwritten: bool)
    requires RowOk(row, l, i, overwritten) && !call.entry.key.TopupOf? && (call.entry.payment == Some(i) ==> row.order.Some?)
    ensures RowOk(row, Post(l, call).ledger, i, overwritten)
  {
    var l' := Post(l, call).ledger;
    if l' != l {
      SumAppend(l.rows, l'.rows[|l.rows|], S.PaymentShare(i));
      SumAppend(l.rows, l'.rows[|l.rows|], AboutShare(i));
    }
  }

  lemma BookKeeps(s: Rails, call: Call)
    requires Inv(s)
    ensures Inv(Apply(s, Book(call)))
  {
    var s' := Apply(s, Book(call));
    if s' != s {
      hide Told, CopiesOk, RowOk;
      SameRows(s, s');
      forall i: Id | i < |s.db.payments| ensures RowOk(s.db.payments[i], s'.db.ledger, i, i in s.overwritten) {
        BookRow(s.db.payments[i], s.db.ledger, call, i, i in s.overwritten);
      }
    }
  }

  lemma OrdersKeep(s: Rails, orders: seq<Order>)
    requires Inv(s)
    ensures Inv(Apply(s, Pipeline(orders)))
  {
    hide RowOk, Told, CopiesOk;
    SameRows(s, Apply(s, Pipeline(orders)));
  }

  lemma ExpiredKeeps(s: Rails, p: nat)
    requires Inv(s)
    ensures Inv(Apply(s, PollExpired(p)))
  {
    if Has(s, p, CryptoBot) && s.copies[p].row.status.Pending? {
      assert CopyOk(s.db, s.copies[p]);
      StatusStep(s, Apply(s, PollExpired(p)), s.copies[p].id);
    }
  }

  lemma OrderSettledKeeps(s: Rails, i: Id)
    requires Inv(s)
    ensures Inv(Apply(s, OrderSettled(i)))
  {
    if i < |s.db.payments| && s.db.payments[i].order.Some? && !s.db.payments[i].provider.Tron? {
      StatusStep(s, Apply(s, OrderSettled(i)), i);
    }
  }

  lemma StepKeeps(s: Rails, e: Event)
    requires Inv(s)
    ensures Inv(Apply(s, e))
  {
    hide Inv, DoDuty;
    match e {
      case Issue(row) => IssueKeeps(s, row);
      case Read(p, i) => ReadKeeps(s, p, i);
      case PollPaid(p, cents, now) => PollKeeps(s, p, cents, now);
      case Finish(p) => if p in s.copies && p in s.duties { FinishKeeps(s, p); }
      case PollExpired(p) => ExpiredKeeps(s, p);
      case Webhook(p, cents) => WebhookKeeps(s, p, cents);
      case Stars(p, receipt) => StarsKeeps(s, p, receipt);
      case Arrive(i, txid, received) => ArriveKeeps(s, i, txid, received);
      case Scan(p) => ScanKeeps(s, p);
      case Book(call) => BookKeeps(s, call);
      case OrderSettled(i) => OrderSettledKeeps(s, i);
      case Pipeline(orders) => OrdersKeep(s, orders);
      case Crash(p) => CrashKeeps(s, p);
    }
  }

  lemma {:induction false} RunKeeps(s: Rails, events: seq<Event>)
    requires Inv(s)
    ensures Inv(Run(s, events))
    decreases events
  {
    hide Inv, Apply;
    if events != [] {
      StepKeeps(s, events[0]);
      RunKeeps(Apply(s, events[0]), events[1..]);
    }
  }

  // ---------------------------------------------------------------- what a run remembers

  lemma {:induction false} RunLast(s: Rails, events: seq<Event>, e: Event)
    ensures Run(s, events + [e]) == Apply(Run(s, events), e)
    decreases events
  {
    hide Apply;
    if events == [] {
      assert [e][1..] == [];
    } else {
      assert (events + [e])[1..] == events[1..] + [e];
      RunLast(Apply(s, events[0]), events[1..], e);
    }
  }

  /** A poll finds payment `i` paid with another amount, while it is still waiting. */
  predicate Refuses(s: Rails, e: Event, i: Id) {
    && e.PollPaid? && Has(s, e.process, CryptoBot) && Waiting(s.copies[e.process].row.status) && e.process !in s.duties
    && (e.cents.None? || e.cents.value != s.copies[e.process].row.amount)
    && s.copies[e.process].id == i < |s.db.payments| && Waiting(s.db.payments[i].status)
  }

  /** A poll dies that has marked payment `i` and not told anybody. */
  predicate DiesBetween(s: Rails, e: Event, i: Id) {
    e.Crash? && e.process in s.copies && e.process in s.duties && s.duties[e.process].Flag? && s.copies[e.process].id == i
  }

  /** A plain update of the poll, or of the webhook for another amount, lands on payment `i` when it is PAID. */
  predicate Overwritten(s: Rails, e: Event, i: Id) {
    && i < |s.db.payments| && s.db.payments[i].status.Paid?
    && (e.PollExpired? || e.Webhook?) && Has(s, e.process, CryptoBot) && s.copies[e.process].id == i
    && var row := s.copies[e.process].row;
       if e.PollExpired? then row.status.Pending?
       else row.order.None? && row.topupReference && !row.status.Paid? && (e.cents.None? || e.cents.value != row.amount)
  }

  ghost predicate EverOverwritten(events: seq<Event>, i: Id) {
    exists n: nat :: n < |events| && Overwritten(Run(Empty(), events[..n]), events[n], i)
  }

  ghost predicate EverRefused(events: seq<Event>, i: Id) {
    exists n: nat :: n < |events| && Refuses(Run(Empty(), events[..n]), events[n], i)
  }

  ghost predicate EverLost(events: seq<Event>, i: Id) {
    exists n: nat :: n < |events| && DiesBetween(Run(Empty(), events[..n]), events[n], i)
  }

  lemma StepRemembers(s: Rails, e: Event, i: Id)
    ensures i in Apply(s, e).refused <==> i in s.refused || Refuses(s, e, i)
    ensures i in Apply(s, e).lost <==> i in s.lost || DiesBetween(s, e, i)
    ensures i in Apply(s, e).overwritten <==> i in s.overwritten || Overwritten(s, e, i)
  {
    hide Waiting, SettlePaidInvoiceTx, SellInvoiced, SettleStarsTx, TopupTx, ResolveMismatchTx, Post, OfOrder, Credited;
    if Overwritten(s, e, i) {
      assert Apply(s, e).db.payments[i] != s.db.payments[i];
    }
  }

  lemma {:induction false} RunRemembers(events: seq<Event>, i: Id)
    ensures i in Run(Empty(), events).refused <==> EverRefused(events, i)
    ensures i in Run(Empty(), events).lost <==> EverLost(events, i)
    ensures i in Run(Empty(), events).overwritten <==> EverOverwritten(events, i)
    decreases |events|
  {
    if events != [] {
      var last, before := events[|events| - 1], events[..|events| - 1];
      assert events == before + [last];
      RunLast(Empty(), before, last);
      StepRemembers(Run(Empty(), before), last, i);
      RunRemembers(before, i);
      hide Run, Apply, Refuses, DiesBetween, Overwritten;
      assert forall n: nat | n < |before| :: before[n] == events[n] && before[..n] == events[..n];
      EverAfter(before, last, i);
    }
  }

  lemma EverAfter(before: seq<Event>, last: Event, i: Id)
    ensures EverRefused(before + [last], i) <==> EverRefused(before, i) || Refuses(Run(Empty(), before), last, i)
    ensures EverLost(before + [last], i) <==> EverLost(before, i) || DiesBetween(Run(Empty(), before), last, i)
    ensures EverOverwritten(before + [last], i) <==> EverOverwritten(before, i) || Overwritten(Run(Empty(), before), last, i)
  {
    hide Run, Refuses, DiesBetween, Overwritten;
    var events := before + [last];
    assert events[..|before|] == before && events[|before|] == last;
    forall n: nat | n < |before| ensures events[..n] == before[..n] && events[n] == before[n] {
    }
  }

  // ---------------------------------------------------------------- the promises

  lemma OwnerAlone(db: Db, i: Id, user: Id)
    requires Linked(db) && i < |db.payments| && db.payments[i].order.None?
    ensures S.GivenFor(db.ledger.rows, user, i) == if user == db.payments[i].user then S.PaymentTotal(db.ledger.rows, i) else 0
  {
    forall r | r in db.ledger.rows
      ensures S.OwnShare(user, i)(r) == if user == db.payments[i].user then S.PaymentShare(i)(r) else 0
    {
      var n: nat :| n < |db.ledger.rows| && db.ledger.rows[n] == r;
      assert OwnersRow(db.payments, db.ledger.rows[n]);
    }
    if user == db.payments[i].user {
      SumSame(db.ledger.rows, S.OwnShare(user, i), S.PaymentShare(i));
    } else {
      SumZero(db.ledger.rows, S.OwnShare(user, i));
    }
  }

  /** Credited exactly once, across rails: at every instant of every interleaving, what the ledger
      holds about a top-up is nothing, or one row of exactly its worth on its owner's balance, however often
      it was settled; a PAID one worth at least a cent has been credited; and a credited one is PAID unless a
      plain update of the poll or the webhook landed on it after that. */
  lemma CreditedExactlyOnce(events: seq<Event>, i: Id)
    requires i < |Run(Empty(), events).db.payments| && Run(Empty(), events).db.payments[i].order.None?
    ensures var s := Run(Empty(), events);
            var row, total := s.db.payments[i], S.PaymentTotal(s.db.ledger.rows, i);
            && (if TopupOf(i) in s.db.ledger.records then RowsAbout(s.db.ledger.rows, i) == 1 && total == Creditable(row)
                else RowsAbout(s.db.ledger.rows, i) == 0 && total == 0)
            && (IsTopup(row) && row.status.Paid? && Creditable(row) >= 1 ==> total == Creditable(row))
            && (forall user: Id :: S.GivenFor(s.db.ledger.rows, user, i) == if user == row.user then total else 0)
            && (total != 0 && !EverOverwritten(events, i) ==> row.status.Paid?)
            && (row.provider.Tron? && !row.status.Paid? ==> total == 0)
  {
    RunKeeps(Empty(), events);
    RunRemembers(events, i);
    hide Run, EverOverwritten, EverRefused, EverLost, Told, CopiesOk;
    var s := Run(Empty(), events);
    assert RowOk(s.db.payments[i], s.db.ledger, i, i in s.overwritten);
    forall user: Id
      ensures S.GivenFor(s.db.ledger.rows, user, i)
              == if user == s.db.payments[i].user then S.PaymentTotal(s.db.ledger.rows, i) else 0
    {
      OwnerAlone(s.db, i, user);
    }
  }

  /** Two overlapping sweeps produce one flag: in every run a payment is on an operator's timeline at most
      once, and one that is there is not polled again. */
  lemma FlaggedAtMostOnce(events: seq<Event>, m: nat, n: nat)
    requires m < n < |Run(Empty(), events).db.anomalies|
    ensures var db := Run(Empty(), events).db;
            && db.anomalies[m].payment != db.anomalies[n].payment
            && db.anomalies[m].payment < |db.payments| && !Waiting(db.payments[db.anomalies[m].payment].status)
  {
    RunKeeps(Empty(), events);
  }

  lemma EmptyKeeps()
    ensures Inv(Empty())
  {
  }

  lemma RefusedRow(s: Rails, i: Id)
    requires Inv(s) && i in s.refused
    ensures OnTimeline(s.db.anomalies, i) || Owed(s.copies, s.duties, i) <==> i !in s.lost
    ensures i < |s.db.payments| && !Waiting(s.db.payments[i].status)
  {
    hide OnTimeline, Owed, RowsOk, CopiesOk, FlaggedOnce, DutiesOk;
  }

  /** In every run, of every payment that a poll marked UNDERPAID because the provider reports another
      amount: an operator has been told, once, or is about to be, if and only if no poll died between
      marking it and telling; and it is polled no more either way. */
  lemma ToldIff(events: seq<Event>, i: Id)
    requires EverRefused(events, i)
    ensures var s := Run(Empty(), events);
            && (OnTimeline(s.db.anomalies, i) || Owed(s.copies, s.duties, i) <==> !EverLost(events, i))
            && i < |s.db.payments| && !Waiting(s.db.payments[i].status)
  {
    hide *;
    EmptyKeeps();
    RunKeeps(Empty(), events);
    RunRemembers(events, i);
    RefusedRow(Run(Empty(), events), i);
  }

  /** Left alone, a poll's steps for a paid invoice are its turn of the sweep. */
  lemma StepsArePollOne(s: Rails, p: nat, cents: Option<nat>, now: int)
    requires Has(s, p, CryptoBot) && Waiting(s.copies[p].row.status) && p !in s.duties
    ensures Apply(Apply(s, PollPaid(p, cents, now)), Finish(p)).db
            == PollOne(Polled(s.db, 0, None), s.copies[p], InvoicePaid(cents), now).db
  {
    hide SettleMissedTopupTx, Flagged;
  }

  // ---------------------------------------------------------------- PAID does not last

  /** Credited means PAID. */
  predicate CreditShows(db: Db, i: Id) {
    i < |db.payments| && (TopupOf(i) in db.ledger.records ==> db.payments[i].status.Paid?)
  }

  /** The poll's plain update to EXPIRED, and the webhook's to UNDERPAID when the amount differs, on a top-up
      worth a cent of which credited means PAID: that stays so if and only if the row is not PAID at the
      moment of the update, which is what the update does not ask. */
  lemma PlainUpdateForgetsIff(s: Rails, e: Event)
    requires Inv(s) && (e.PollExpired? || e.Webhook?) && Has(s, e.process, CryptoBot)
    requires e.PollExpired? ==> s.copies[e.process].row.status.Pending?
    requires e.Webhook? ==> s.copies[e.process].row.order.None? && s.copies[e.process].row.topupReference
                            && !s.copies[e.process].row.status.Paid? && (e.cents.Some? ==> e.cents.value != s.copies[e.process].row.amount)
    requires var i := s.copies[e.process].id;
             CreditShows(s.db, i) && IsTopup(s.db.payments[i]) && Creditable(s.db.payments[i]) >= 1
    ensures var i := s.copies[e.process].id;
            CreditShows(Apply(s, e).db, i) <==> !s.db.payments[i].status.Paid?
  {
    var i := s.copies[e.process].id;
    assert CopyOk(s.db, s.copies[e.process]) && RowOk(s.db.payments[i], s.db.ledger, i, i in s.overwritten);
  }

  /** It happens: a top-up of 100 cents is issued, read by the poll and by the webhook, credited by the
      webhook, and marked EXPIRED by the poll. */
  lemma ExpiryAfterCredit()
    ensures var row := Payment(CryptoBot, None, 0, 100, None, PaymentStatus.Pending, true, 0, 0, None);
            var s := Apply(Apply(Apply(Apply(Apply(Empty(), Issue(row)), Read(0, 0)), Read(1, 0)), Webhook(1, Some(100))), PollExpired(0));
            |s.db.payments| == 1 && s.db.payments[0].status.Expired? && S.PaymentTotal(s.db.ledger.rows, 0) == 100
  {
    var row := Payment(CryptoBot, None, 0, 100, None, PaymentStatus.Pending, true, 0, 0, None);
    var read := Apply(Apply(Apply(Empty(), Issue(row)), Read(0, 0)), Read(1, 0));
    assert read.copies[0] == read.copies[1] == Seen(0, row, None) && read.db.payments == [row];
    var paid := Apply(read, Webhook(1, Some(100)));
    assert paid.db.ledger.rows == [Row(0, LedgerType.TopUp, 100, None, Some(0))] && paid.db.payments[0].status.Paid?;
    assert paid.db.ledger.rows[..0] == [];
  }
}
