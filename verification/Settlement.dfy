/** Chain-scan as a state machine: any number of sweeps over one wallet, each with the copies it
    has read and one settlement under way, interleaved with checkouts and with everything the
    rest of the shop may do. A sweep may crash between any two steps.

    `chain` is what the blockchain says: the amount of each transfer. */
module Settlement {
  import opened Schema
  import opened Sums
  import opened LedgerBook
  import opened Money
  import opened Orders
  import opened TronMatch
  import opened TagProtocol
  import opened ChainScan

  type Amounts = Txid -> nat

  datatype Task =
    | Loading                                                      // the candidates are not read yet
    | Idle
    | Reading(row: Id, expected: int, txid: Txid)                  // bound, the row is not read back yet
    | Settling(seen: Seen, expected: int, txid: Txid)
    | Short(seen: Seen, expected: int, txid: Txid, prior: int)     // short on its own, prior credits read
    | Lacking(seen: Seen, expected: int, txid: Txid)               // settleUnderpaid is outstanding
    | Late(seen: Seen, txid: Txid)                                 // settleLate is outstanding
    | Credited(seen: Seen, txid: Txid)                             // late money credited, order to be looked at

  datatype Sweep = Sweep(
    now: int,
    listed: set<Txid>,
    recorded: map<Txid, Seen>,
    flagged: set<Txid>,
    cs: seq<Candidate>,
    task: Task)

  datatype Wallet = Wallet(db: Db, sweeps: map<nat, Sweep>)

  datatype Event =
    | Others(after: Db)
    | Issue(cents: nat, tag: nat, order: Option<Id>, user: Id, now: int)
    | Expire(now: int)
    | Begin(sweep: nat, now: int, listed: set<Txid>)
    | Load(sweep: nat)
    | Take(sweep: nat, txid: Txid, at: int)
    | Go(sweep: nat, clock: int)
    | Crash(sweep: nat)

  // ---------------------------------------------------------------- what the others may do

  /** The payment an idempotency key names. */
  function PaymentOfKey(k: Key): Option<Id> {
    match k
    case OverpaidOf(p) => Some(p)
    case UnderpaidOf(p) => Some(p)
    case ReclaimOf(p) => Some(p)
    case LateOf(p) => Some(p)
    case TopupOf(p) => Some(p)
    case _ => None
  }

  predicate NotTron(payments: seq<Payment>, p: Option<Id>) {
    p.Some? ==> p.value < |payments| && !payments[p.value].provider.Tron?
  }

  predicate OrderKept(a: Order, b: Order) {
    && b.(status := a.status, payload := a.payload, paidAt := a.paidAt, externalId := a.externalId) == a
    && (a.tronAsk.Some? ==> b.externalId == a.externalId)
    && (b.status.Pending? ==> a.status.Pending?)
  }

  predicate FreshOrder(b: Order) {
    b.tronAsk.None? && (b.status.Pending? ==> b.expiresAt == Some(b.createdAt + DEFAULT_ORDER_EXPIRY_MS))
  }

  /** Anything at all, as long as no TRON row and no order sold here is touched, no order becomes
      PENDING again, the ledger only grows, and what it grows by is not about a TRON row. */
  ghost predicate Rely(db: Db, db': Db) {
    && |db.orders| <= |db'.orders|
    && (forall o: Id | o < |db.orders| :: OrderKept(db.orders[o], db'.orders[o]))
    && (forall o: Id | |db.orders| <= o < |db'.orders| :: FreshOrder(db'.orders[o]))
    && |db.payments| <= |db'.payments|
    && (forall i: Id | i < |db.payments| ::
          if db.payments[i].provider.Tron? then db'.payments[i] == db.payments[i] else !db'.payments[i].provider.Tron?)
    && (forall i: Id | |db.payments| <= i < |db'.payments| :: !db'.payments[i].provider.Tron?)
    && Extends(db.ledger, db'.ledger)
    && (forall n: nat | |db.ledger.rows| <= n < |db'.ledger.rows| :: NotTron(db'.payments, db'.ledger.rows[n].payment))
    && (forall k | k in db'.ledger.records && k !in db.ledger.records :: NotTron(db'.payments, PaymentOfKey(k)))
  }

  // ---------------------------------------------------------------- steps

  function Does(s: Wallet, p: nat, task: Task): Wallet
    requires p in s.sweeps
  {
    s.(sweeps := s.sweeps[p := s.sweeps[p].(task := task)])
  }

  /** One transfer of the list: skipped, flagged, taken up where a dead sweep left it, or bound. */
  function TakeUp(s: Wallet, p: nat, txid: Txid, at: int, chain: Amounts): Wallet
    requires p in s.sweeps
  {
    var w := s.sweeps[p];
    if !w.task.Idle? || txid !in w.listed || txid in w.flagged then s
    else if txid in w.recorded then
      var known := w.recorded[txid];
      if known.row.status.Confirming? then Does(s, p, Settling(known, ExpectedFor(known, w.cs), txid)) else s
    else
      match MatchTransfer(txid, chain(txid), w.cs)
      case Unmatched(_) =>
        s.(db := s.db.(flagged := s.db.flagged + {txid}), sweeps := s.sweeps[p := w.(flagged := w.flagged + {txid})])
      case AlreadyRecorded(_) => s
      case Exact(k) => Bind(s, p, k, txid, at, chain)
      case ByTag(k) => Bind(s, p, k, txid, at, chain)
  }

  /** The invoice was there before the sweep that binds to it: `at` is later than its `createdAt`. */
  function Bind(s: Wallet, p: nat, k: nat, txid: Txid, at: int, chain: Amounts): Wallet
    requires p in s.sweeps && k < |s.sweeps[p].cs|
  {
    var w := s.sweeps[p];
    if at <= w.cs[k].createdAt then s
    else
      var tx := BindTx(s.db.payments, w.cs[k], txid, chain(txid), at);
      if tx.Err? then s
      else Wallet(s.db.(payments := tx.value.payments),
                s.sweeps[p := w.(cs := w.cs[k := w.cs[k].(txHash := Some(txid))],
                                 task := Reading(tx.value.id, w.cs[k].amount, txid))])
  }

  /** The next step of the settlement a sweep has under way. */
  function Continue(s: Wallet, p: nat, clock: int, chain: Amounts): Wallet
    requires p in s.sweeps
  {
    var w := s.sweeps[p];
    match w.task
    case Loading => s
    case Idle => s
    case Reading(i, expected, txid) =>
      if i >= |s.db.payments| then Does(s, p, Idle)
      else
        var seen := See(s.db, i);
        s.(sweeps := s.sweeps[p := w.(recorded := w.recorded[txid := seen],
                                      task := if seen.row.status.Confirming? then Settling(seen, expected, txid) else Idle)])
    case Settling(seen, expected, txid) =>
      if seen.row.order.None? || seen.order.None? then
        Does(s.(db := Committed(s.db, TopupTx(s.db, seen, chain(txid)))), p, Idle)
      else if OrderClosed(seen.order, w.now) then Does(s, p, Late(seen, txid))
      else if chain(txid) < expected then
        Does(s, p, Short(seen, expected, txid, PriorUnderpaidCents(s.db, seen.row.order.value)))
      else
        var tx := OrderPaidTx(s.db, seen, expected, chain(txid), txid, clock);
        if tx.Ok? && tx.value.None? then Does(s, p, Late(seen, txid)) else Does(Sold(s, tx), p, Idle)
    case Short(seen, expected, txid, prior) =>
      if chain(txid) >= expected || chain(txid) + prior * CENTS_TO_USDT6 < expected then Does(s, p, Lacking(seen, expected, txid))
      else
        var tx := OrderCompletedTx(s.db, seen, expected, chain(txid), txid, clock);
        if tx == Err(InsufficientBalance) then Does(s, p, Lacking(seen, expected, txid))
        else if tx.Ok? && tx.value.None? then Does(s, p, Late(seen, txid))
        else Does(Sold(s, tx), p, Idle)
    case Lacking(seen, expected, txid) =>
      Does(s.(db := Committed(s.db, UnderpaidTx(s.db, seen, expected, chain(txid)))), p, Idle)
    case Late(seen, txid) =>
      var tx := LateTx(s.db, seen, chain(txid));
      Does(s.(db := Committed(s.db, tx)), p, if tx.Ok? then Credited(seen, txid) else Idle)
    case Credited(seen, txid) => Does(s.(db := FlagDoublePaid(s.db, seen.row.order, txid)), p, Idle)
  }

  function Sold(s: Wallet, tx: Result<Option<Db>>): Wallet {
    if tx.Ok? && tx.value.Some? then s.(db := tx.value.value) else s
  }

  function Recorded(db: Db, listed: set<Txid>): (r: map<Txid, Seen>)
    ensures forall t | t in r :: FindTx(db.payments, t).Some? && r[t] == See(db, FindTx(db.payments, t).value)
  {
    map t | t in listed && FindTx(db.payments, t).Some? :: See(db, FindTx(db.payments, t).value)
  }

  /** A checkout asks the buyer of an order for its money, and asks after the order was made. */
  predicate MayInvoice(orders: seq<Order>, o: Id, user: Id, now: int) {
    o < |orders| && orders[o].user == user && orders[o].createdAt <= now
  }

  ghost function Apply(s: Wallet, e: Event, chain: Amounts): Wallet {
    match e
    case Others(db') => if Rely(s.db, db') then s.(db := db') else s
    case Issue(cents, tag, o, user, now) =>
      if cents == 0 || tag < 1 || tag > TRON_TAG_MAX || (o.Some? && !MayInvoice(s.db.orders, o.value, user, now)) then s
      else s.(db := s.db.(payments := s.db.payments + [Invoice(cents, tag, o, user, now)]))
    case Expire(now) => s.(db := s.db.(payments := ExpireStaleTx(s.db.payments, now)))
    case Begin(p, now, listed) =>
      s.(sweeps := s.sweeps[p := Sweep(now, listed, Recorded(s.db, listed), listed * s.db.flagged, [], Loading)])
    case Load(p) =>
      if p in s.sweeps && s.sweeps[p].task.Loading?
      then s.(sweeps := s.sweeps[p := s.sweeps[p].(cs := LoadCandidates(s.db.payments, s.db.orders, s.sweeps[p].now), task := Idle)])
      else s
    case Take(p, txid, at) => if p in s.sweeps then TakeUp(s, p, txid, at, chain) else s
    case Go(p, clock) => if p in s.sweeps then Continue(s, p, clock, chain) else s
    case Crash(p) => s.(sweeps := s.sweeps - {p})
  }

  ghost function Run(s: Wallet, events: seq<Event>, chain: Amounts): Wallet
    decreases events
  {
    if events == [] then s else Run(Apply(s, events[0], chain), events[1..], chain)
  }

  // ---------------------------------------------------------------- the books of a wallet

  /** The transfer on this row has had its effect. */
  predicate Settled(p: Payment) {
    p.provider.Tron? && (p.status.Paid? || p.status.Underpaid?)
  }

  predicate Carries(p: Payment, txid: Txid) {
    p.provider.Tron? && p.txHash == Some(txid)
  }

  function PaymentShare(p: Id): Row -> int {
    (r: Row) => if r.payment == Some(p) then r.amountCents else 0
  }

  /** What the ledger holds about one payment: credits less reclaims. */
  function PaymentTotal(rows: seq<Row>, p: Id): int {
    Sum(rows, PaymentShare(p))
  }

  /** The ask of the order this very transfer bought, or 0. */
  function BoughtAsk(payments: seq<Payment>, orders: seq<Order>, p: Id): int
    requires p < |payments|
  {
    var row := payments[p];
    if row.order.Some? && row.order.value < |orders| && orders[row.order.value].tronAsk.Some?
       && orders[row.order.value].externalId == row.txHash
    then orders[row.order.value].tronAsk.value else 0
  }

  function ReceivedShare(): Payment -> int {
    (p: Payment) => if Settled(p) then p.received else 0
  }

  function SettledShare(): Payment -> int {
    (p: Payment) => if Settled(p) then 1 else 0
  }

  function TronShare(payments: seq<Payment>): Row -> int {
    (r: Row) => if r.payment.Some? && r.payment.value < |payments| && payments[r.payment.value].provider.Tron?
                then r.amountCents else 0
  }

  function AskShare(): Order -> int {
    (order: Order) => if order.tronAsk.Some? then order.tronAsk.value else 0
  }

  /** Everything received by settled transfers, less what the ledger gave for it, less what it bought. */
  function Slack(payments: seq<Payment>, orders: seq<Order>, rows: seq<Row>): int {
    Sum(payments, ReceivedShare()) - CENTS_TO_USDT6 * Sum(rows, TronShare(payments)) - Sum(orders, AskShare())
  }

  predicate Conserved(payments: seq<Payment>, orders: seq<Order>, rows: seq<Row>) {
    0 <= Slack(payments, orders, rows) <= (CENTS_TO_USDT6 - 1) * Sum(payments, SettledShare())
  }

  predicate RowOk(p: Payment, orders: nat, chain: Amounts) {
    p.provider.Tron? ==>
      && (p.txHash.None? <==> p.status.Pending? || p.status.Expired?)
      && (p.txHash.Some? ==> p.received == chain(p.txHash.value) && !p.status.Failed?)
      && (p.order.Some? ==> p.order.value < orders)
  }

  predicate UniqueTx(payments: seq<Payment>) {
    forall i: Id, j: Id | i < |payments| && j < |payments| && payments[i].provider.Tron? && payments[j].provider.Tron?
                          && payments[i].txHash.Some? && payments[i].txHash == payments[j].txHash :: i == j
  }

  /** The ledger says nothing about a TRON row whose transfer is not settled. */
  predicate Earned(payments: seq<Payment>, p: Option<Id>) {
    p.Some? ==> p.value < |payments| && (payments[p.value].provider.Tron? ==> Settled(payments[p.value]))
  }

  /** A ledger row about a TRON payment is on the balance of whoever owns the payment, about its order if it
      names one, and a top-up if it is a credit and a purchase if it is a reclaim. */
  predicate OwnRow(payments: seq<Payment>, r: Row) {
    r.payment.Some? && r.payment.value < |payments| && payments[r.payment.value].provider.Tron? ==>
      && r.user == payments[r.payment.value].user && (r.order.Some? ==> r.order == payments[r.payment.value].order)
      && (if r.amountCents > 0 then r.kind.TopUp? else r.kind.Purchase?)
  }

  /** The payment of an order is its buyer's. */
  predicate BuyerPays(payments: seq<Payment>, orders: seq<Order>, i: Id) {
    i < |payments| && payments[i].provider.Tron? && payments[i].order.Some? && payments[i].order.value < |orders| ==>
      payments[i].user == orders[payments[i].order.value].user
  }

  predicate Accounted(payments: seq<Payment>, l: Ledger) {
    && (forall n: nat | n < |l.rows| :: Earned(payments, l.rows[n].payment) && OwnRow(payments, l.rows[n]))
    && (forall k | k in l.records :: Earned(payments, PaymentOfKey(k)))
  }

  predicate Buys(payments: seq<Payment>, p: Id, order: Order, o: Id) {
    p < |payments| && payments[p].provider.Tron? && payments[p].status.Paid? && payments[p].order == Some(o)
    && payments[p].txHash.Some? && payments[p].txHash == order.externalId
  }

  ghost predicate SoldOk(payments: seq<Payment>, order: Order, o: Id) {
    order.tronAsk.Some? ==> !order.status.Pending? && exists p: Id :: Buys(payments, p, order, o)
  }

  /** One transfer's own account: less than a cent of it is unaccounted for. */
  predicate Balanced(payments: seq<Payment>, orders: seq<Order>, rows: seq<Row>, p: Id)
    requires p < |payments|
  {
    Settled(payments[p]) ==>
      0 <= payments[p].received - CENTS_TO_USDT6 * PaymentTotal(rows, p) - BoughtAsk(payments, orders, p) < CENTS_TO_USDT6
  }

  ghost predicate Books(db: Db, chain: Amounts) {
    && (forall i: Id | i < |db.payments| :: RowOk(db.payments[i], |db.orders|, chain))
    && UniqueTx(db.payments)
    && Accounted(db.payments, db.ledger)
    && (forall o: Id | o < |db.orders| :: SoldOk(db.payments, db.orders[o], o))
    && (forall i: Id | i < |db.payments| :: BuyerPays(db.payments, db.orders, i))
    && (forall i: Id | i < |db.payments| :: Balanced(db.payments, db.orders, db.ledger.rows, i))
    && Conserved(db.payments, db.orders, db.ledger.rows)
  }

  // ---------------------------------------------------------------- what only ever grows

  predicate PaymentGrows(a: Payment, b: Payment) {
    && (a.provider.Tron? <==> b.provider.Tron?)
    && (a.provider.Tron? ==>
          && b.order == a.order && b.user == a.user && b.createdAt == a.createdAt && b.invoiceAsk == a.invoiceAsk
          && (a.txHash.Some? ==> b.txHash == a.txHash && b.received == a.received)
          && (Settled(a) ==> Settled(b)) && (a.status.Paid? ==> b.status.Paid?)
          && (a.txHash.Some? && b.status.Confirming? ==> a.status.Confirming?))
  }

  predicate OrderGrows(a: Order, b: Order) {
    && b.user == a.user && b.createdAt == a.createdAt && b.expiresAt == a.expiresAt
    && (b.status.Pending? ==> a.status.Pending?)
    && (a.tronAsk.Some? ==> b.tronAsk == a.tronAsk && b.externalId == a.externalId)
  }

  /** A transfer stays on its row, a row leaves CONFIRMING once, and once it has, what the ledger
      holds about it and what it bought never change again. */
  ghost predicate Grows(db: Db, db': Db) {
    && |db.orders| <= |db'.orders|
    && (forall o: Id | o < |db.orders| :: OrderGrows(db.orders[o], db'.orders[o]))
    && |db.payments| <= |db'.payments|
    && (forall i: Id | i < |db.payments| :: PaymentGrows(db.payments[i], db'.payments[i]))
    && (forall i: Id | i < |db.payments| && Settled(db.payments[i]) ::
          PaymentTotal(db'.ledger.rows, i) == PaymentTotal(db.ledger.rows, i)
          && BoughtAsk(db'.payments, db'.orders, i) == BoughtAsk(db.payments, db.orders, i))
    && Extends(db.ledger, db'.ledger)
  }

  /** One step: besides, only a CONFIRMING row is settled. */
  ghost predicate Moves(db: Db, db': Db) {
    && Grows(db, db')
    && forall i: Id | i < |db.payments| && !Settled(db.payments[i]) && Settled(db'.payments[i]) :: db.payments[i].status.Confirming?
  }

  /** One settlement: row `p` leaves CONFIRMING, at most one ledger row of `cents` is written about
      it, at most its own order is sold, for `ask`, and less than a cent is left over. */
  predicate Settles(db: Db, db': Db, p: Id, cents: int, ask: Option<int>) {
    && p < |db.payments| == |db'.payments|
    && db.payments[p].status.Confirming? && Settled(db'.payments[p])
    && (forall i: Id | i < |db.payments| :: PaymentGrows(db.payments[i], db'.payments[i]))
    && (forall i: Id | i < |db.payments| && i != p ::
          db'.payments[i] == db.payments[i]
          || (ask.Some? && db.payments[i].order == db.payments[p].order && db.payments[i].status.Underpaid?
              && db'.payments[i] == db.payments[i].(status := PaymentStatus.Paid)))
    && (forall i: Id | i < |db.payments| :: db'.payments[i].txHash == db.payments[i].txHash)
    && (if cents == 0 then db'.ledger == db.ledger
        else Writes(db.ledger, db'.ledger, p, cents) && OwnRow(db.payments, db'.ledger.rows[|db.ledger.rows|]))
    && (if ask.None? then db'.orders == db.orders else Sells(db, db', p, ask.value))
    && 0 <= db.payments[p].received - CENTS_TO_USDT6 * cents - (if ask.Some? then ask.value else 0) < CENTS_TO_USDT6
  }

  predicate Writes(l: Ledger, l': Ledger, p: Id, cents: int) {
    && |l'.rows| == |l.rows| + 1 && l'.rows == l.rows + [l'.rows[|l.rows|]]
    && l'.rows[|l.rows|].payment == Some(p) && l'.rows[|l.rows|].amountCents == cents
    && (forall k | k in l.records :: k in l'.records && l'.records[k] == l.records[k])
    && (forall k | k in l'.records && k !in l.records :: PaymentOfKey(k) == Some(p))
  }

  predicate Sells(db: Db, db': Db, p: Id, ask: int)
    requires p < |db.payments| == |db'.payments|
  {
    var row := db.payments[p];
    && row.order.Some? && row.order.value < |db.orders| == |db'.orders|
    && db.orders[row.order.value].status.Pending?
    && db'.orders == db.orders[row.order.value := db'.orders[row.order.value]]
    && db.orders[row.order.value].tronAsk.None? && OrderGrows(db.orders[row.order.value], db'.orders[row.order.value])
    && db'.orders[row.order.value].status.Paid?
    && db'.orders[row.order.value].tronAsk == Some(ask) && db'.orders[row.order.value].externalId == row.txHash
    && db'.payments[p].status.Paid?
  }

  // ---------------------------------------------------------------- a settlement keeps the books

  lemma NothingYet(payments: seq<Payment>, l: Ledger, p: Id)
    requires Accounted(payments, l)
    requires p < |payments| ==> payments[p].provider.Tron? && !Settled(payments[p])
    ensures PaymentTotal(l.rows, p) == 0
  {
    forall r | r in l.rows ensures PaymentShare(p)(r) == 0 {
      var n: nat :| n < |l.rows| && l.rows[n] == r;
      assert Earned(payments, l.rows[n].payment);
    }
    SumZero(l.rows, PaymentShare(p));
  }

  /** A transfer that is not settled has bought nothing. */
  lemma NotBoughtYet(db: Db, chain: Amounts, p: Id)
    requires Books(db, chain) && p < |db.payments| && db.payments[p].status.Confirming? && db.payments[p].provider.Tron?
    ensures BoughtAsk(db.payments, db.orders, p) == 0
  {
    var row := db.payments[p];
    assert RowOk(row, |db.orders|, chain);
    forall o: Id | o < |db.orders| && db.orders[o].tronAsk.Some? ensures db.orders[o].externalId != row.txHash {
      assert SoldOk(db.payments, db.orders[o], o);
      var q: Id :| Buys(db.payments, q, db.orders[o], o);
    }
  }

  lemma TotalAfter(l: Ledger, l': Ledger, p: Id, cents: int, q: Id)
    requires if cents == 0 then l' == l else Writes(l, l', p, cents)
    ensures PaymentTotal(l'.rows, q) == PaymentTotal(l.rows, q) + if q == p then cents else 0
  {
    if cents != 0 {
      SumAppend(l.rows, l'.rows[|l.rows|], PaymentShare(q));
    }
  }

  lemma BoughtAfter(db: Db, db': Db, chain: Amounts, p: Id, cents: int, ask: Option<int>, q: Id)
    requires Books(db, chain) && Settles(db, db', p, cents, ask) && q < |db.payments| && db.payments[q].provider.Tron?
    ensures BoughtAsk(db'.payments, db'.orders, q)
            == if q != p then BoughtAsk(db.payments, db.orders, q) else if ask.Some? then ask.value else 0
  {
    NotBoughtYet(db, chain, p);
    assert RowOk(db.payments[q], |db.orders|, chain) && RowOk(db.payments[p], |db.orders|, chain);
    assert PaymentGrows(db.payments[q], db'.payments[q]);
    if ask.Some? {
      var o := db.payments[p].order.value;
      assert SoldOk(db.payments, db.orders[o], o);
    }
  }

  lemma SettleBalanced(db: Db, db': Db, chain: Amounts, p: Id, cents: int, ask: Option<int>)
    requires Books(db, chain) && Settles(db, db', p, cents, ask)
    ensures forall i: Id | i < |db'.payments| :: Balanced(db'.payments, db'.orders, db'.ledger.rows, i)
    ensures forall i: Id | i < |db.payments| && Settled(db.payments[i]) ::
              PaymentTotal(db'.ledger.rows, i) == PaymentTotal(db.ledger.rows, i)
              && BoughtAsk(db'.payments, db'.orders, i) == BoughtAsk(db.payments, db.orders, i)
  {
    forall i: Id | i < |db.payments| && Settled(db'.payments[i])
      ensures Balanced(db'.payments, db'.orders, db'.ledger.rows, i)
      ensures Settled(db.payments[i]) ==>
                PaymentTotal(db'.ledger.rows, i) == PaymentTotal(db.ledger.rows, i)
                && BoughtAsk(db'.payments, db'.orders, i) == BoughtAsk(db.payments, db.orders, i)
    {
      assert PaymentGrows(db.payments[i], db'.payments[i]) && Balanced(db.payments, db.orders, db.ledger.rows, i);
      TotalAfter(db.ledger, db'.ledger, p, cents, i);
      BoughtAfter(db, db', chain, p, cents, ask, i);
      assert RowOk(db.payments[i], |db.orders|, chain);
      if i == p {
        NothingYet(db.payments, db.ledger, p);
      }
    }
    forall i: Id | i < |db.payments| && Settled(db.payments[i]) ensures Settled(db'.payments[i]) {
      assert PaymentGrows(db.payments[i], db'.payments[i]);
    }
  }

  lemma SettleRows(db: Db, db': Db, chain: Amounts, p: Id, cents: int, ask: Option<int>)
    requires Books(db, chain) && Settles(db, db', p, cents, ask)
    ensures forall i: Id | i < |db'.payments| :: RowOk(db'.payments[i], |db'.orders|, chain)
    ensures UniqueTx(db'.payments) && Accounted(db'.payments, db'.ledger)
    ensures forall o: Id | o < |db'.orders| :: SoldOk(db'.payments, db'.orders[o], o)
    ensures forall i: Id | i < |db'.payments| :: BuyerPays(db'.payments, db'.orders, i)
  {
    forall i: Id | i < |db'.payments| ensures RowOk(db'.payments[i], |db'.orders|, chain) && BuyerPays(db'.payments, db'.orders, i) {
      assert RowOk(db.payments[i], |db.orders|, chain) && PaymentGrows(db.payments[i], db'.payments[i]);
      assert BuyerPays(db.payments, db.orders, i);
    }
    assert RowOk(db.payments[p], |db.orders|, chain);
    forall n: nat | n < |db'.ledger.rows|
      ensures Earned(db'.payments, db'.ledger.rows[n].payment) && OwnRow(db'.payments, db'.ledger.rows[n])
    {
      if n < |db.ledger.rows| { assert Earned(db.payments, db.ledger.rows[n].payment) && OwnRow(db.payments, db.ledger.rows[n]); }
    }
    forall k | k in db'.ledger.records ensures Earned(db'.payments, PaymentOfKey(k)) {
      if k in db.ledger.records { assert Earned(db.payments, PaymentOfKey(k)); }
    }
    forall o: Id | o < |db'.orders| ensures SoldOk(db'.payments, db'.orders[o], o) {
      assert SoldOk(db.payments, db.orders[o], o);
      if ask.Some? && o == db.payments[p].order.value {
        assert Buys(db'.payments, p, db'.orders[o], o);
      } else if db.orders[o].tronAsk.Some? {
        var q: Id :| Buys(db.payments, q, db.orders[o], o);
        assert Buys(db'.payments, q, db'.orders[o], o);
      }
    }
  }

  /** UPDATE of one row and of rows whose share is the same. */
  lemma SumsAfter(ps: seq<Payment>, ps': seq<Payment>, p: Id, f: Payment -> int)
    requires p < |ps| == |ps'| && forall i: Id | i < |ps| && i != p :: f(ps'[i]) == f(ps[i])
    ensures Sum(ps', f) == Sum(ps, f) - f(ps[p]) + f(ps'[p])
  {
    SumUpdate(ps, p, ps'[p], f);
    SumPointwise(ps[p := ps'[p]], ps', f, f);
  }

  lemma SettleConserved(db: Db, db': Db, chain: Amounts, p: Id, cents: int, ask: Option<int>)
    requires Books(db, chain) && Settles(db, db', p, cents, ask)
    ensures Conserved(db'.payments, db'.orders, db'.ledger.rows)
  {
    forall i: Id | i < |db.payments| && i != p
      ensures ReceivedShare()(db'.payments[i]) == ReceivedShare()(db.payments[i])
      ensures SettledShare()(db'.payments[i]) == SettledShare()(db.payments[i])
    {
      assert PaymentGrows(db.payments[i], db'.payments[i]) && RowOk(db.payments[i], |db.orders|, chain);
    }
    assert PaymentGrows(db.payments[p], db'.payments[p]) && RowOk(db.payments[p], |db.orders|, chain);
    SumsAfter(db.payments, db'.payments, p, ReceivedShare());
    SumsAfter(db.payments, db'.payments, p, SettledShare());
    TronTotalAfter(db, db', chain, p, cents, ask);
    if ask.Some? {
      var o := db.payments[p].order.value;
      assert SoldOk(db.payments, db.orders[o], o);
      SumUpdate(db.orders, o, db'.orders[o], AskShare());
    }
  }

  lemma TronTotalAfter(db: Db, db': Db, chain: Amounts, p: Id, cents: int, ask: Option<int>)
    requires Books(db, chain) && Settles(db, db', p, cents, ask)
    ensures Sum(db'.ledger.rows, TronShare(db'.payments)) == Sum(db.ledger.rows, TronShare(db.payments)) + cents
  {
    assert PaymentGrows(db.payments[p], db'.payments[p]);
    if cents != 0 {
      SumAppend(db.ledger.rows, db'.ledger.rows[|db.ledger.rows|], TronShare(db'.payments));
    }
    TronShareSame(db.payments, db'.payments, db.ledger);
  }

  lemma TronShareSame(payments: seq<Payment>, payments': seq<Payment>, l: Ledger)
    requires Accounted(payments, l) && |payments| <= |payments'|
    requires forall i: Id | i < |payments| :: payments'[i].provider.Tron? <==> payments[i].provider.Tron?
    ensures Sum(l.rows, TronShare(payments')) == Sum(l.rows, TronShare(payments))
  {
    forall r | r in l.rows ensures TronShare(payments')(r) == TronShare(payments)(r) {
      var n: nat :| n < |l.rows| && l.rows[n] == r;
      assert Earned(payments, l.rows[n].payment);
    }
    SumSame(l.rows, TronShare(payments'), TronShare(payments));
  }

  lemma SettleKeeps(db: Db, db': Db, chain: Amounts, p: Id, cents: int, ask: Option<int>)
    requires Books(db, chain) && Settles(db, db', p, cents, ask)
    ensures Books(db', chain) && Moves(db, db')
  {
    SettleRows(db, db', chain, p, cents, ask);
    SettleBalanced(db, db', chain, p, cents, ask);
    SettleConserved(db, db', chain, p, cents, ask);
    hide RowOk, UniqueTx, Accounted, SoldOk, BuyerPays, Balanced, Conserved, PaymentGrows, PaymentTotal, BoughtAsk;
    forall o: Id | o < |db.orders| ensures OrderGrows(db.orders[o], db'.orders[o]) {
    }
  }

  // ---------------------------------------------------------------- the other steps keep the books

  /** Rows that only move towards their settlement, and new rows that are not settled. */
  predicate Advances(a: Payment, b: Payment) {
    PaymentGrows(a, b) && (if Settled(a) then b == a else !Settled(b))
  }

  lemma RowsKeep(db: Db, payments': seq<Payment>, chain: Amounts)
    requires Books(db, chain) && |db.payments| <= |payments'|
    requires forall i: Id | i < |db.payments| :: Advances(db.payments[i], payments'[i])
    requires forall i: Id | |db.payments| <= i < |payments'| :: payments'[i].provider.Tron? && !Settled(payments'[i])
    requires forall i: Id | i < |payments'| :: RowOk(payments'[i], |db.orders|, chain)
    requires UniqueTx(payments')
    requires forall i: Id | |db.payments| <= i < |payments'| :: BuyerPays(payments', db.orders, i)
    ensures Books(db.(payments := payments'), chain) && Moves(db, db.(payments := payments'))
  {
    var db' := db.(payments := payments');
    forall n: nat | n < |db.ledger.rows| ensures Earned(payments', db.ledger.rows[n].payment) && OwnRow(payments', db.ledger.rows[n]) {
      assert Earned(db.payments, db.ledger.rows[n].payment) && OwnRow(db.payments, db.ledger.rows[n]);
    }
    forall i: Id | i < |payments'| ensures BuyerPays(payments', db.orders, i) {
      if i < |db.payments| { assert BuyerPays(db.payments, db.orders, i) && PaymentGrows(db.payments[i], payments'[i]); }
    }
    forall k | k in db.ledger.records ensures Earned(payments', PaymentOfKey(k)) {
      assert Earned(db.payments, PaymentOfKey(k));
    }
    forall o: Id | o < |db.orders| ensures SoldOk(payments', db.orders[o], o) {
      assert SoldOk(db.payments, db.orders[o], o);
      if db.orders[o].tronAsk.Some? {
        var q: Id :| Buys(db.payments, q, db.orders[o], o);
        assert Buys(payments', q, db.orders[o], o);
      }
    }
    forall i: Id | i < |payments'| ensures Balanced(payments', db.orders, db.ledger.rows, i) {
      if i < |db.payments| { assert Balanced(db.payments, db.orders, db.ledger.rows, i); }
    }
    RowsConserve(db, payments', chain);
    hide Conserved;
  }

  lemma RowsConserve(db: Db, payments': seq<Payment>, chain: Amounts)
    requires Books(db, chain) && |db.payments| <= |payments'|
    requires forall i: Id | i < |db.payments| :: Advances(db.payments[i], payments'[i])
    requires forall i: Id | |db.payments| <= i < |payments'| :: payments'[i].provider.Tron? && !Settled(payments'[i])
    ensures Conserved(payments', db.orders, db.ledger.rows)
  {
    SumGrows(db.payments, payments', ReceivedShare());
    SumGrows(db.payments, payments', SettledShare());
    TronShareSame(db.payments, payments', db.ledger);
  }

  lemma IssueKeeps(db: Db, chain: Amounts, cents: nat, tag: nat, order: Option<Id>, user: Id, now: int)
    requires Books(db, chain) && (order.Some? ==> MayInvoice(db.orders, order.value, user, now))
    ensures var db' := db.(payments := db.payments + [Invoice(cents, tag, order, user, now)]);
            Books(db', chain) && Moves(db, db')
  {
    var payments' := db.payments + [Invoice(cents, tag, order, user, now)];
    forall i: Id | i < |payments'| ensures RowOk(payments'[i], |db.orders|, chain) {
      if i < |db.payments| { assert RowOk(db.payments[i], |db.orders|, chain); }
    }
    RowsKeep(db, payments', chain);
  }

  lemma ExpireKeeps(db: Db, chain: Amounts, now: int)
    requires Books(db, chain)
    ensures var db' := db.(payments := ExpireStaleTx(db.payments, now));
            Books(db', chain) && Moves(db, db')
  {
    var payments' := ExpireStaleTx(db.payments, now);
    forall i: Id | i < |payments'| ensures RowOk(payments'[i], |db.orders|, chain) && Advances(db.payments[i], payments'[i]) {
      assert RowOk(db.payments[i], |db.orders|, chain);
    }
    RowsKeep(db, payments', chain);
  }

  /** A candidate still describes its row, which a sweep may have bound meanwhile. */
  predicate CandOk(db: Db, c: Candidate) {
    && c.id < |db.payments| && db.payments[c.id].provider.Tron?
    && var row := db.payments[c.id];
       row.order == c.row.order && row.user == c.row.user && row.createdAt == c.createdAt && row.invoiceAsk == c.row.invoiceAsk
  }

  lemma BindKeeps(db: Db, chain: Amounts, c: Candidate, txid: Txid, at: int)
    requires Books(db, chain) && CandOk(db, c) && BindTx(db.payments, c, txid, chain(txid), at).Ok?
    ensures var tx := BindTx(db.payments, c, txid, chain(txid), at).value;
            && Books(db.(payments := tx.payments), chain) && Moves(db, db.(payments := tx.payments))
            && tx.id < |tx.payments| && Carries(tx.payments[tx.id], txid)
  {
    var tx := BindTx(db.payments, c, txid, chain(txid), at).value;
    assert RowOk(db.payments[c.id], |db.orders|, chain) && BuyerPays(db.payments, db.orders, c.id);
    forall i: Id | i < |tx.payments|
      ensures RowOk(tx.payments[i], |db.orders|, chain)
      ensures i < |db.payments| ==> Advances(db.payments[i], tx.payments[i])
    {
      if i < |db.payments| { assert RowOk(db.payments[i], |db.orders|, chain); }
    }
    RowsKeep(db, tx.payments, chain);
  }

  lemma RelyTotals(db: Db, db': Db, chain: Amounts, p: Id)
    requires Books(db, chain) && Rely(db, db') && p < |db.payments| && db.payments[p].provider.Tron?
    ensures PaymentTotal(db'.ledger.rows, p) == PaymentTotal(db.ledger.rows, p)
    ensures BoughtAsk(db'.payments, db'.orders, p) == BoughtAsk(db.payments, db.orders, p)
  {
    forall n: nat | |db.ledger.rows| <= n < |db'.ledger.rows| ensures PaymentShare(p)(db'.ledger.rows[n]) == 0 {
      assert NotTron(db'.payments, db'.ledger.rows[n].payment);
    }
    SumGrows(db.ledger.rows, db'.ledger.rows, PaymentShare(p));
    assert RowOk(db.payments[p], |db.orders|, chain);
    var o := db.payments[p].order;
    if o.Some? {
      assert OrderKept(db.orders[o.value], db'.orders[o.value]);
    }
  }

  lemma RelyConserved(db: Db, db': Db, chain: Amounts)
    requires Books(db, chain) && Rely(db, db')
    ensures Conserved(db'.payments, db'.orders, db'.ledger.rows)
  {
    SumGrows(db.payments, db'.payments, ReceivedShare());
    SumGrows(db.payments, db'.payments, SettledShare());
    forall o: Id | o < |db'.orders| ensures AskShare()(db'.orders[o]) == if o < |db.orders| then AskShare()(db.orders[o]) else 0 {
      if o < |db.orders| { assert OrderKept(db.orders[o], db'.orders[o]); } else { assert FreshOrder(db'.orders[o]); }
    }
    SumGrows(db.orders, db'.orders, AskShare());
    forall n: nat | |db.ledger.rows| <= n < |db'.ledger.rows| ensures TronShare(db'.payments)(db'.ledger.rows[n]) == 0 {
      assert NotTron(db'.payments, db'.ledger.rows[n].payment);
    }
    SumGrows(db.ledger.rows, db'.ledger.rows, TronShare(db'.payments));
    TronShareSame(db.payments, db'.payments, db.ledger);
  }

  lemma RelyKeeps(db: Db, db': Db, chain: Amounts)
    requires Books(db, chain) && Rely(db, db')
    ensures Books(db', chain) && Moves(db, db')
  {
    RelyConserved(db, db', chain);
    forall i: Id | i < |db'.payments|
      ensures RowOk(db'.payments[i], |db'.orders|, chain)
      ensures Balanced(db'.payments, db'.orders, db'.ledger.rows, i)
      ensures BuyerPays(db'.payments, db'.orders, i)
    {
      if db'.payments[i].provider.Tron? {
        assert RowOk(db.payments[i], |db.orders|, chain) && Balanced(db.payments, db.orders, db.ledger.rows, i);
        assert BuyerPays(db.payments, db.orders, i);
        RelyTotals(db, db', chain, i);
        if db.payments[i].order.Some? {
          assert OrderKept(db.orders[db.payments[i].order.value], db'.orders[db.payments[i].order.value]);
        }
      }
    }
    forall i: Id | i < |db.payments| && Settled(db.payments[i])
      ensures PaymentTotal(db'.ledger.rows, i) == PaymentTotal(db.ledger.rows, i)
      ensures BoughtAsk(db'.payments, db'.orders, i) == BoughtAsk(db.payments, db.orders, i)
    {
      RelyTotals(db, db', chain, i);
    }
    RelySold(db, db', chain);
    RelyAccounted(db, db', chain);
  }

  lemma RelySold(db: Db, db': Db, chain: Amounts)
    requires Books(db, chain) && Rely(db, db')
    ensures forall o: Id | o < |db'.orders| :: SoldOk(db'.payments, db'.orders[o], o)
  {
    forall o: Id | o < |db'.orders| ensures SoldOk(db'.payments, db'.orders[o], o) {
      if o < |db.orders| {
        assert OrderKept(db.orders[o], db'.orders[o]) && SoldOk(db.payments, db.orders[o], o);
        if db.orders[o].tronAsk.Some? {
          var q: Id :| Buys(db.payments, q, db.orders[o], o);
          assert Buys(db'.payments, q, db'.orders[o], o);
        }
      } else {
        assert FreshOrder(db'.orders[o]);
      }
    }
  }

  lemma RelyAccounted(db: Db, db': Db, chain: Amounts)
    requires Books(db, chain) && Rely(db, db')
    ensures UniqueTx(db'.payments) && Accounted(db'.payments, db'.ledger)
  {
    forall n: nat | n < |db'.ledger.rows|
      ensures Earned(db'.payments, db'.ledger.rows[n].payment) && OwnRow(db'.payments, db'.ledger.rows[n])
    {
      if n < |db.ledger.rows| {
        assert Earned(db.payments, db.ledger.rows[n].payment) && OwnRow(db.payments, db.ledger.rows[n]);
      } else {
        assert NotTron(db'.payments, db'.ledger.rows[n].payment);
      }
    }
    forall k | k in db'.ledger.records ensures Earned(db'.payments, PaymentOfKey(k)) {
      if k in db.ledger.records {
        assert Earned(db.payments, PaymentOfKey(k));
      } else {
        assert NotTron(db'.payments, PaymentOfKey(k));
      }
    }
  }

  // ---------------------------------------------------------------- the five outcomes are settlements

  /** A copy of a bound row, as good as the row itself in everything that never changes. */
  predicate SeenOk(db: Db, seen: Seen, txid: Txid) {
    && seen.id < |db.payments| && Carries(db.payments[seen.id], txid)
    && var row := db.payments[seen.id];
       && row.order == seen.row.order && row.user == seen.row.user
       && (seen.row.order.Some? ==>
             && seen.row.order.value < |db.orders| && seen.order.Some?
             && db.orders[seen.row.order.value].expiresAt == seen.order.value.expiresAt
             && (db.orders[seen.row.order.value].status.Pending? ==> seen.order.value.status.Pending?))
  }

  /** A ledger call about a row whose transfer is not settled is never answered from the records. */
  lemma BookWrites(db: Db, chain: Amounts, c: Call, p: Id)
    requires Books(db, chain) && p < |db.payments| && db.payments[p].provider.Tron? && db.payments[p].status.Confirming?
    requires c.entry.payment == Some(p) && PaymentOfKey(c.entry.key) == Some(p) && Booked(db.ledger, c).Ok?
    requires c.entry.user == db.payments[p].user && (c.entry.order.Some? ==> c.entry.order == db.payments[p].order)
    requires if c.Credit? then c.entry.kind.TopUp? else c.entry.kind.Purchase?
    ensures var l := Booked(db.ledger, c).value;
            && Writes(db.ledger, l, p, if c.Credit? then c.entry.amountCents else 0 - c.entry.amountCents)
            && OwnRow(db.payments, l.rows[|db.ledger.rows|])
  {
    assert !Earned(db.payments, PaymentOfKey(c.entry.key));
  }

  lemma PaidSettles(db: Db, chain: Amounts, seen: Seen, expected: int, txid: Txid, now: int)
    requires Books(db, chain) && SeenOk(db, seen, txid) && chain(txid) >= expected
    ensures var tx := OrderPaidTx(db, seen, expected, chain(txid), txid, now);
            tx.Ok? && tx.value.Some? ==> Settles(db, tx.value.value, seen.id, UsdCents(chain(txid) - expected), Some(expected))
  {
    var tx := OrderPaidTx(db, seen, expected, chain(txid), txid, now);
    if tx.Ok? && tx.value.Some? {
      assert SoldOk(db.payments, db.orders[seen.row.order.value], seen.row.order.value);
      assert RowOk(db.payments[seen.id], |db.orders|, chain);
      var cents := UsdCents(chain(txid) - expected);
      if cents > 0 {
        BookWrites(db, chain, Credit(TronEntry(seen, cents, LedgerType.TopUp, OverpaidOf(seen.id))), seen.id);
      }
    }
  }

  /** The tables of a completing sale: row `p` is PAID, and so are the order's UNDERPAID rows. */
  lemma ClosedRows(payments: seq<Payment>, p: Id, amount: int)
    requires p < |payments| && payments[p].provider.Tron? && payments[p].status.Confirming? && payments[p].order.Some?
    ensures var claimed := payments[p := payments[p].(status := PaymentStatus.Paid, amount := amount)];
            var closed := CloseUnderpaid(claimed, payments[p].order.value);
            && |closed| == |payments| && closed[p].status.Paid?
            && (forall i: Id | i < |payments| :: PaymentGrows(payments[i], closed[i]) && closed[i].txHash == payments[i].txHash)
            && (forall i: Id | i < |payments| && i != p ::
                  closed[i] == payments[i]
                  || (payments[i].order == payments[p].order && payments[i].status.Underpaid?
                      && closed[i] == payments[i].(status := PaymentStatus.Paid)))
  {
  }

  lemma CompletedSettles(db: Db, chain: Amounts, seen: Seen, expected: int, txid: Txid, now: int)
    requires Books(db, chain) && SeenOk(db, seen, txid) && chain(txid) < expected
    ensures var tx := OrderCompletedTx(db, seen, expected, chain(txid), txid, now);
            tx.Ok? && tx.value.Some? ==> Settles(db, tx.value.value, seen.id, 0 - CeilCents(expected - chain(txid)), Some(expected))
  {
    hide Conserved, Balanced, UniqueTx, Accounted;
    var tx := OrderCompletedTx(db, seen, expected, chain(txid), txid, now);
    if tx.Ok? && tx.value.Some? {
      assert SoldOk(db.payments, db.orders[seen.row.order.value], seen.row.order.value);
      assert RowOk(db.payments[seen.id], |db.orders|, chain);
      var needed := CeilCents(expected - chain(txid));
      BookWrites(db, chain, Debit(TronEntry(seen, needed, LedgerType.Purchase, ReclaimOf(seen.id))), seen.id);
      ClosedRows(db.payments, seen.id, chain(txid));
      assert 0 <= CENTS_TO_USDT6 * needed - (expected - chain(txid)) < CENTS_TO_USDT6 && needed > 0;
      hide Books, Booked, CloseUnderpaid, PaymentGrows, SoldOk, CeilCents;
    }
  }

  lemma UnderpaidSettles(db: Db, chain: Amounts, seen: Seen, expected: int, txid: Txid)
    requires Books(db, chain) && SeenOk(db, seen, txid)
    ensures var tx := UnderpaidTx(db, seen, expected, chain(txid));
            tx.Ok? ==> Settles(db, tx.value, seen.id, UsdCents(chain(txid)), None)
  {
    if UnderpaidTx(db, seen, expected, chain(txid)).Ok? {
      assert RowOk(db.payments[seen.id], |db.orders|, chain);
      var cents := UsdCents(chain(txid));
      if cents > 0 {
        BookWrites(db, chain, Credit(TronEntry(seen, cents, LedgerType.TopUp, UnderpaidOf(seen.id))), seen.id);
      }
    }
  }

  lemma LateSettles(db: Db, chain: Amounts, seen: Seen, txid: Txid)
    requires Books(db, chain) && SeenOk(db, seen, txid)
    ensures var tx := LateTx(db, seen, chain(txid));
            tx.Ok? ==> Settles(db, tx.value, seen.id, UsdCents(chain(txid)), None)
  {
    if LateTx(db, seen, chain(txid)).Ok? {
      assert RowOk(db.payments[seen.id], |db.orders|, chain);
      var cents := UsdCents(chain(txid));
      if cents > 0 {
        BookWrites(db, chain, Credit(TronEntry(seen, cents, LedgerType.TopUp, LateOf(seen.id))), seen.id);
      }
    }
  }

  lemma TopupSettles(db: Db, chain: Amounts, seen: Seen, txid: Txid)
    requires Books(db, chain) && SeenOk(db, seen, txid)
    ensures var tx := TopupTx(db, seen, chain(txid));
            tx.Ok? ==> Settles(db, tx.value, seen.id, UsdCents(chain(txid)), None)
  {
    if TopupTx(db, seen, chain(txid)).Ok? {
      assert RowOk(db.payments[seen.id], |db.orders|, chain);
      var cents := UsdCents(chain(txid));
      if cents > 0 {
        BookWrites(db, chain, Credit(Entry(seen.row.user, cents, LedgerType.TopUp, None, Some(seen.id), TopupOf(seen.id))), seen.id);
      }
    }
  }

  // ---------------------------------------------------------------- every step, every run

  ghost predicate TaskOk(db: Db, task: Task) {
    match task
    case Loading => true
    case Idle => true
    case Reading(i, _, txid) => i < |db.payments| && Carries(db.payments[i], txid)
    case Settling(seen, _, txid) => SeenOk(db, seen, txid)
    case Short(seen, _, txid, _) => SeenOk(db, seen, txid)
    case Lacking(seen, _, txid) => SeenOk(db, seen, txid)
    case Late(seen, txid) => SeenOk(db, seen, txid)
    case Credited(seen, txid) => SeenOk(db, seen, txid)
  }

  ghost predicate SweepOk(db: Db, w: Sweep) {
    && (forall k: nat | k < |w.cs| :: CandOk(db, w.cs[k]))
    && (forall t | t in w.recorded :: SeenOk(db, w.recorded[t], t))
    && TaskOk(db, w.task)
  }

  ghost predicate Inv(s: Wallet, chain: Amounts) {
    Books(s.db, chain) && forall p | p in s.sweeps :: SweepOk(s.db, s.sweeps[p])
  }

  lemma SeenKept(db: Db, db': Db, seen: Seen, txid: Txid)
    requires Grows(db, db') && SeenOk(db, seen, txid)
    ensures SeenOk(db', seen, txid)
  {
    assert PaymentGrows(db.payments[seen.id], db'.payments[seen.id]);
    if seen.row.order.Some? {
      assert OrderGrows(db.orders[seen.row.order.value], db'.orders[seen.row.order.value]);
    }
  }

  lemma SweepKept(db: Db, db': Db, w: Sweep)
    requires Grows(db, db') && SweepOk(db, w)
    ensures SweepOk(db', w)
  {
    forall k: nat | k < |w.cs| ensures CandOk(db', w.cs[k]) {
      assert CandOk(db, w.cs[k]) && PaymentGrows(db.payments[w.cs[k].id], db'.payments[w.cs[k].id]);
    }
    forall t | t in w.recorded ensures SeenOk(db', w.recorded[t], t) {
      SeenKept(db, db', w.recorded[t], t);
    }
    match w.task {
      case Loading =>
      case Idle =>
      case Reading(i, _, txid) => assert PaymentGrows(db.payments[i], db'.payments[i]);
      case Settling(seen, _, txid) => SeenKept(db, db', seen, txid);
      case Short(seen, _, txid, _) => SeenKept(db, db', seen, txid);
      case Lacking(seen, _, txid) => SeenKept(db, db', seen, txid);
      case Late(seen, txid) => SeenKept(db, db', seen, txid);
      case Credited(seen, txid) => SeenKept(db, db', seen, txid);
    }
  }

  lemma SweepsKept(s: Wallet, db': Db)
    requires Grows(s.db, db') && forall p | p in s.sweeps :: SweepOk(s.db, s.sweeps[p])
    ensures forall p | p in s.sweeps :: SweepOk(db', s.sweeps[p])
  {
    forall p | p in s.sweeps ensures SweepOk(db', s.sweeps[p]) {
      SweepKept(s.db, db', s.sweeps[p]);
    }
  }

  lemma GrowsSelf(db: Db, db': Db)
    requires db' == db.(flagged := db'.flagged)
    ensures Moves(db, db')
  {
  }

  lemma SeeOk(db: Db, chain: Amounts, i: Id, txid: Txid)
    requires Books(db, chain) && i < |db.payments| && Carries(db.payments[i], txid)
    ensures SeenOk(db, See(db, i), txid)
  {
    assert RowOk(db.payments[i], |db.orders|, chain);
  }

  lemma SaleKeeps(db: Db, chain: Amounts, seen: Seen, expected: int, txid: Txid, now: int)
    requires Books(db, chain) && SeenOk(db, seen, txid)
    ensures var tx := if chain(txid) >= expected then OrderPaidTx(db, seen, expected, chain(txid), txid, now)
                      else OrderCompletedTx(db, seen, expected, chain(txid), txid, now);
            tx.Ok? && tx.value.Some? ==> Books(tx.value.value, chain) && Moves(db, tx.value.value)
  {
    if chain(txid) >= expected {
      PaidSettles(db, chain, seen, expected, txid, now);
      var tx := OrderPaidTx(db, seen, expected, chain(txid), txid, now);
      hide *;
      if tx.Ok? && tx.value.Some? {
        SettleKeeps(db, tx.value.value, chain, seen.id, UsdCents(chain(txid) - expected), Some(expected));
      }
    } else {
      CompletedSettles(db, chain, seen, expected, txid, now);
      var tx := OrderCompletedTx(db, seen, expected, chain(txid), txid, now);
      hide *;
      if tx.Ok? && tx.value.Some? {
        SettleKeeps(db, tx.value.value, chain, seen.id, 0 - CeilCents(expected - chain(txid)), Some(expected));
      }
    }
  }

  lemma CreditKeeps(db: Db, chain: Amounts, seen: Seen, expected: int, txid: Txid)
    requires Books(db, chain) && SeenOk(db, seen, txid)
    ensures forall tx | tx == TopupTx(db, seen, chain(txid)) || tx == LateTx(db, seen, chain(txid))
                        || tx == UnderpaidTx(db, seen, expected, chain(txid)) ::
              tx.Ok? ==> Books(tx.value, chain) && Moves(db, tx.value)
  {
    TopupSettles(db, chain, seen, txid);
    LateSettles(db, chain, seen, txid);
    UnderpaidSettles(db, chain, seen, expected, txid);
    hide *;
    forall tx | tx == TopupTx(db, seen, chain(txid)) || tx == LateTx(db, seen, chain(txid))
                || tx == UnderpaidTx(db, seen, expected, chain(txid))
      ensures tx.Ok? ==> Books(tx.value, chain) && Moves(db, tx.value)
    {
      if tx.Ok? { SettleKeeps(db, tx.value, chain, seen.id, UsdCents(chain(txid)), None); }
    }
  }

  lemma TaskIsOk(s: Wallet, p: nat, chain: Amounts)
    requires Inv(s, chain) && p in s.sweeps
    ensures Books(s.db, chain) && SweepOk(s.db, s.sweeps[p]) && TaskOk(s.db, s.sweeps[p].task)
  {
    hide Books;
    assert SweepOk(s.db, s.sweeps[p]);
  }

  /** What a settlement step leaves of the tables. */
  lemma ContinueBooks(s: Wallet, p: nat, clock: int, chain: Amounts)
    requires Inv(s, chain) && p in s.sweeps
    ensures var s' := Continue(s, p, clock, chain);
            Books(s'.db, chain) && Moves(s.db, s'.db)
  {
    hide Books, Moves, SweepOk, SeenOk, Inv, TopupTx, LateTx, UnderpaidTx, OrderPaidTx, OrderCompletedTx, FlagDoublePaid, See,
         OrderClosed, PriorUnderpaidCents;
    GrowsSelf(s.db, s.db);
    TaskIsOk(s, p, chain);
    match s.sweeps[p].task {
      case Loading =>
      case Idle =>
      case Reading(i, _, txid) =>
      case Settling(seen, expected, txid) =>
        SettlingBooks(s, p, clock, chain);
      case Short(seen, expected, txid, prior) =>
        SaleKeeps(s.db, chain, seen, expected, txid, clock);
      case Lacking(seen, expected, txid) =>
        CreditKeeps(s.db, chain, seen, expected, txid);
      case Late(seen, txid) =>
        CreditKeeps(s.db, chain, seen, 0, txid);
      case Credited(seen, txid) =>
        FlagStep(s.db, seen.row.order, txid, chain);
    }
  }

  lemma SettlingBooks(s: Wallet, p: nat, clock: int, chain: Amounts)
    requires Books(s.db, chain) && p in s.sweeps && s.sweeps[p].task.Settling?
    requires SeenOk(s.db, s.sweeps[p].task.seen, s.sweeps[p].task.txid)
    ensures var s' := Continue(s, p, clock, chain);
            Books(s'.db, chain) && Moves(s.db, s'.db)
  {
    hide Books, Moves, SeenOk, TopupTx, LateTx, UnderpaidTx, OrderPaidTx, OrderCompletedTx, OrderClosed, PriorUnderpaidCents;
    var seen, expected, txid := s.sweeps[p].task.seen, s.sweeps[p].task.expected, s.sweeps[p].task.txid;
    GrowsSelf(s.db, s.db);
    CreditKeeps(s.db, chain, seen, expected, txid);
    SaleKeeps(s.db, chain, seen, expected, txid, clock);
  }

  lemma FlagStep(db: Db, o: Option<Id>, txid: Txid, chain: Amounts)
    requires Books(db, chain)
    ensures Books(FlagDoublePaid(db, o, txid), chain) && Moves(db, FlagDoublePaid(db, o, txid))
  {
    GrowsSelf(db, FlagDoublePaid(db, o, txid));
  }

  lemma SweepSteps(s: Wallet, s': Wallet, p: nat, chain: Amounts)
    requires Inv(s, chain) && Books(s'.db, chain) && Grows(s.db, s'.db)
    requires p in s'.sweeps && s'.sweeps == s.sweeps[p := s'.sweeps[p]] && SweepOk(s'.db, s'.sweeps[p])
    ensures Inv(s', chain)
  {
    SweepsKept(s, s'.db);
    hide Books, Moves, Grows, SweepOk;
  }

  /** A sweep with another settlement under way, and the same copies. */
  lemma TaskSteps(s: Wallet, s': Wallet, p: nat, chain: Amounts)
    requires Inv(s, chain) && Books(s'.db, chain) && Grows(s.db, s'.db) && p in s.sweeps && p in s'.sweeps
    requires s'.sweeps == s.sweeps[p := s.sweeps[p].(task := s'.sweeps[p].task)]
    requires TaskOk(s.db, s.sweeps[p].task) ==> TaskOk(s.db, s'.sweeps[p].task)
    ensures Inv(s', chain)
  {
    assert SweepOk(s.db, s.sweeps[p].(task := s'.sweeps[p].task));
    SweepKept(s.db, s'.db, s.sweeps[p].(task := s'.sweeps[p].task));
    SweepSteps(s, s', p, chain);
  }

  lemma ReadKeeps(s: Wallet, p: nat, clock: int, chain: Amounts)
    requires Inv(s, chain) && p in s.sweeps && s.sweeps[p].task.Reading?
    ensures Inv(Continue(s, p, clock, chain), chain)
  {
    assert SweepOk(s.db, s.sweeps[p]);
    GrowsSelf(s.db, s.db);
    var i, txid := s.sweeps[p].task.row, s.sweeps[p].task.txid;
    SeeOk(s.db, chain, i, txid);
    var s' := Continue(s, p, clock, chain);
    hide Books, Moves, Grows, SeenOk, CandOk, Inv, See;
    assert SweepOk(s'.db, s'.sweeps[p]);
    SweepSteps(s, s', p, chain);
  }

  lemma ContinueTask(s: Wallet, p: nat, clock: int, chain: Amounts)
    requires p in s.sweeps && !s.sweeps[p].task.Reading?
    ensures var s' := Continue(s, p, clock, chain);
            && p in s'.sweeps && s'.sweeps == s.sweeps[p := s.sweeps[p].(task := s'.sweeps[p].task)]
            && (TaskOk(s.db, s.sweeps[p].task) ==> TaskOk(s.db, s'.sweeps[p].task))
  {
    hide SeenOk, TopupTx, OrderPaidTx, OrderCompletedTx, UnderpaidTx, LateTx, FlagDoublePaid, OrderClosed, PriorUnderpaidCents;
    assert s.sweeps[p := s.sweeps[p].(task := s.sweeps[p].task)] == s.sweeps;
    match s.sweeps[p].task {
      case Loading =>
      case Idle =>
      case Settling(seen, expected, txid) =>
      case Short(seen, expected, txid, prior) =>
      case Lacking(seen, expected, txid) =>
      case Late(seen, txid) =>
      case Credited(seen, txid) =>
    }
  }

  lemma ContinueKeeps(s: Wallet, p: nat, clock: int, chain: Amounts)
    requires Inv(s, chain) && p in s.sweeps
    ensures var s' := Continue(s, p, clock, chain);
            Inv(s', chain) && Moves(s.db, s'.db)
  {
    ContinueBooks(s, p, clock, chain);
    if s.sweeps[p].task.Reading? {
      ReadKeeps(s, p, clock, chain);
    } else {
      ContinueTask(s, p, clock, chain);
      hide Books, Moves, Grows, Inv, TaskOk, Continue;
      TaskSteps(s, Continue(s, p, clock, chain), p, chain);
    }
  }

  lemma BindStep(s: Wallet, p: nat, k: nat, txid: Txid, at: int, chain: Amounts)
    requires Inv(s, chain) && p in s.sweeps && k < |s.sweeps[p].cs|
    ensures var s' := Bind(s, p, k, txid, at, chain);
            Inv(s', chain) && Moves(s.db, s'.db)
  {
    var w, s' := s.sweeps[p], Bind(s, p, k, txid, at, chain);
    GrowsSelf(s.db, s.db);
    assert SweepOk(s.db, w);
    if s' != s {
      BindKeeps(s.db, chain, w.cs[k], txid, at);
      hide Books, Moves, Grows, SweepOk, Carries, BindTx;
      SweepsKept(s, s'.db);
      BoundSweep(s'.db, w, k, txid, s'.sweeps[p].task);
    }
  }

  lemma BoundSweep(db: Db, w: Sweep, k: nat, txid: Txid, task: Task)
    requires SweepOk(db, w) && k < |w.cs| && task.Reading? && task.row < |db.payments| && Carries(db.payments[task.row], task.txid)
    ensures SweepOk(db, w.(cs := w.cs[k := w.cs[k].(txHash := Some(txid))], task := task))
  {
    hide SeenOk, Carries;
  }

  lemma FlagKeeps(s: Wallet, p: nat, txid: Txid, chain: Amounts)
    requires Inv(s, chain) && p in s.sweeps
    ensures var w := s.sweeps[p];
            var s' := s.(db := s.db.(flagged := s.db.flagged + {txid}), sweeps := s.sweeps[p := w.(flagged := w.flagged + {txid})]);
            Inv(s', chain) && Moves(s.db, s'.db)
  {
    var w, flagged := s.sweeps[p], s.db.(flagged := s.db.flagged + {txid});
    GrowsSelf(s.db, flagged);
    SweepKept(s.db, flagged, w);
    var s' := s.(db := flagged, sweeps := s.sweeps[p := w.(flagged := w.flagged + {txid})]);
    assert SweepOk(flagged, s'.sweeps[p]);
    assert Books(flagged, chain);
    hide Books, Moves, Grows, SweepOk, Inv;
    SweepSteps(s, s', p, chain);
  }

  lemma KnownKeeps(s: Wallet, p: nat, txid: Txid, expected: int, chain: Amounts)
    requires Inv(s, chain) && p in s.sweeps && txid in s.sweeps[p].recorded
    ensures Inv(Does(s, p, Settling(s.sweeps[p].recorded[txid], expected, txid)), chain)
  {
    assert SweepOk(s.db, s.sweeps[p]);
    GrowsSelf(s.db, s.db);
    hide Books, Moves, Grows, SeenOk, Inv;
    assert Books(s.db, chain);
    TaskSteps(s, Does(s, p, Settling(s.sweeps[p].recorded[txid], expected, txid)), p, chain);
  }

  lemma TakeKeeps(s: Wallet, p: nat, txid: Txid, at: int, chain: Amounts)
    requires Inv(s, chain) && p in s.sweeps
    ensures var s' := TakeUp(s, p, txid, at, chain);
            Inv(s', chain) && Moves(s.db, s'.db)
  {
    hide Books, Moves, Inv, MatchTransfer, ExpectedFor, Bind;
    var w, m := s.sweeps[p], MatchTransfer(txid, chain(txid), s.sweeps[p].cs);
    GrowsSelf(s.db, s.db);
    if txid in w.recorded {
      KnownKeeps(s, p, txid, ExpectedFor(w.recorded[txid], w.cs), chain);
    } else if m.Unmatched? {
      FlagKeeps(s, p, txid, chain);
    } else if m.Exact? || m.ByTag? {
      BindStep(s, p, m.at, txid, at, chain);
    }
  }

  lemma BeginKeeps(s: Wallet, p: nat, now: int, listed: set<Txid>, chain: Amounts)
    requires Inv(s, chain)
    ensures Inv(Apply(s, Begin(p, now, listed), chain), chain)
  {
    var recorded := Recorded(s.db, listed);
    forall t | t in recorded ensures SeenOk(s.db, recorded[t], t) {
      SeeOk(s.db, chain, FindTx(s.db.payments, t).value, t);
    }
    hide SeenOk, Books;
  }

  lemma LoadKeeps(s: Wallet, p: nat, chain: Amounts)
    requires Inv(s, chain)
    ensures Inv(Apply(s, Load(p), chain), chain)
  {
    hide SeenOk, Books;
  }

  lemma StepKeeps(s: Wallet, e: Event, chain: Amounts)
    requires Inv(s, chain)
    ensures Inv(Apply(s, e, chain), chain) && Moves(s.db, Apply(s, e, chain).db)
  {
    hide Books, Moves, SweepOk, LoadCandidates;
    GrowsSelf(s.db, s.db);
    match e {
      case Others(db') =>
        if Rely(s.db, db') {
          RelyKeeps(s.db, db', chain);
          SweepsKept(s, db');
        }
      case Issue(cents, tag, o, user, now) =>
        if Apply(s, e, chain) != s {
          IssueKeeps(s.db, chain, cents, tag, o, user, now);
          SweepsKept(s, Apply(s, e, chain).db);
        }
      case Expire(now) =>
        ExpireKeeps(s.db, chain, now);
        SweepsKept(s, Apply(s, e, chain).db);
      case Begin(p, now, listed) => BeginKeeps(s, p, now, listed, chain);
      case Load(p) => LoadKeeps(s, p, chain);
      case Take(p, txid, at) => if p in s.sweeps { TakeKeeps(s, p, txid, at, chain); }
      case Go(p, clock) => if p in s.sweeps { ContinueKeeps(s, p, clock, chain); }
      case Crash(p) =>
    }
  }

  lemma GrowsTransitive(a: Db, b: Db, c: Db)
    requires Grows(a, b) && Grows(b, c)
    ensures Grows(a, c)
  {
    forall i: Id | i < |a.payments|
      ensures PaymentGrows(a.payments[i], c.payments[i])
      ensures Settled(a.payments[i]) ==> Settled(b.payments[i])
    {
      assert PaymentGrows(a.payments[i], b.payments[i]) && PaymentGrows(b.payments[i], c.payments[i]);
    }
    forall o: Id | o < |a.orders| ensures OrderGrows(a.orders[o], c.orders[o]) {
      assert OrderGrows(a.orders[o], b.orders[o]) && OrderGrows(b.orders[o], c.orders[o]);
    }
  }

  lemma {:induction false} RunKeeps(s: Wallet, events: seq<Event>, chain: Amounts)
    requires Inv(s, chain)
    ensures Inv(Run(s, events, chain), chain) && Grows(s.db, Run(s, events, chain).db)
    decreases events
  {
    hide Inv, Grows, Apply;
    if events == [] {
      GrowsSelf(s.db, s.db);
    } else {
      StepKeeps(s, events[0], chain);
      RunKeeps(Apply(s, events[0], chain), events[1..], chain);
      GrowsTransitive(s.db, Apply(s, events[0], chain).db, Run(s, events, chain).db);
    }
  }

  // ---------------------------------------------------------------- the promises, for every run

  /** The shop before its first order. */
  function Empty(): Wallet {
    Wallet(Db([], [], [], EMPTY_LEDGER, [], [], [], {}, []), map[])
  }

  lemma EmptyKeeps(chain: Amounts)
    ensures Inv(Empty(), chain)
  {
  }

  /** No coin is lost and none is made: at every instant of every run, all that settled transfers
      brought in is the net TRON credits, plus the asks of the orders they bought, plus dust of less
      than a cent per settled transfer. */
  lemma MoneyConserved(events: seq<Event>, chain: Amounts)
    ensures var db := Run(Empty(), events, chain).db;
            var received, settled := Sum(db.payments, ReceivedShare()), Sum(db.payments, SettledShare());
            var credited, asks := Sum(db.ledger.rows, TronShare(db.payments)), Sum(db.orders, AskShare());
            0 <= received - CENTS_TO_USDT6 * credited - asks <= (CENTS_TO_USDT6 - 1) * settled
  {
    EmptyKeeps(chain);
    RunKeeps(Empty(), events, chain);
  }

  function OwnShare(user: Id, p: Id): Row -> int {
    (r: Row) => if r.payment == Some(p) && r.user == user then r.amountCents else 0
  }

  /** What one payment has put on one user's balance: credits less reclaims. */
  function GivenFor(rows: seq<Row>, user: Id, p: Id): int {
    Sum(rows, OwnShare(user, p))
  }

  /** Whatever the ledger holds about a TRON payment is on its owner's balance, who is the buyer of its
      order, and on nobody else's. */
  lemma OwnersAlone(db: Db, chain: Amounts, p: Id, user: Id)
    requires Books(db, chain) && p < |db.payments| && db.payments[p].provider.Tron?
    ensures GivenFor(db.ledger.rows, user, p) == if user == db.payments[p].user then PaymentTotal(db.ledger.rows, p) else 0
    ensures var o := db.payments[p].order; o.Some? ==> o.value < |db.orders| && db.orders[o.value].user == db.payments[p].user
  {
    assert RowOk(db.payments[p], |db.orders|, chain) && BuyerPays(db.payments, db.orders, p);
    forall r | r in db.ledger.rows
      ensures OwnShare(user, p)(r) == if user == db.payments[p].user then PaymentShare(p)(r) else 0
    {
      var n: nat :| n < |db.ledger.rows| && db.ledger.rows[n] == r;
      assert OwnRow(db.payments, db.ledger.rows[n]);
    }
    if user == db.payments[p].user {
      SumSame(db.ledger.rows, OwnShare(user, p), PaymentShare(p));
    } else {
      SumZero(db.ledger.rows, OwnShare(user, p));
    }
  }

  /** Every cent reaches whose it is: at every instant of every run each ledger row about a USDT payment,
      whatever the outcome that wrote it (surplus, reclaim, short, late or top-up), is its owner's, and the
      owner of an order's payment is the order's buyer. */
  lemma EveryCentIsTheBuyers(events: seq<Event>, chain: Amounts, n: nat, p: Id)
    requires var db := Run(Empty(), events, chain).db;
             n < |db.ledger.rows| && db.ledger.rows[n].payment == Some(p) && p < |db.payments| && db.payments[p].provider.Tron?
    ensures var db := Run(Empty(), events, chain).db;
            var row, payment := db.ledger.rows[n], db.payments[p];
            && row.user == payment.user
            && (payment.order.Some? ==> payment.order.value < |db.orders| && db.orders[payment.order.value].user == row.user)
            && (row.order.Some? ==> row.order == payment.order)
            && (if row.amountCents > 0 then row.kind.TopUp? else row.kind.Purchase?)
  {
    EmptyKeeps(chain);
    RunKeeps(Empty(), events, chain);
    var db := Run(Empty(), events, chain).db;
    OwnersAlone(db, chain, p, db.payments[p].user);
    assert OwnRow(db.payments, db.ledger.rows[n]);
  }

  /** The account of one transfer, on its payer's balance. Until it is settled it has moved nothing. Once it
      is, it bought its order and what it brought beyond the ask (or lacked, reclaimed) is on the balance, or
      it bought nothing and is on the balance in full; never both and never neither; and it has moved nothing
      on anybody else's. */
  lemma BuysOrIsCredited(events: seq<Event>, chain: Amounts, p: Id, txid: Txid)
    requires p < |Run(Empty(), events, chain).db.payments| && Carries(Run(Empty(), events, chain).db.payments[p], txid)
    ensures var db := Run(Empty(), events, chain).db;
            var row, total := db.payments[p], GivenFor(db.ledger.rows, db.payments[p].user, p);
            var bought := row.order.Some? && row.order.value < |db.orders| && db.orders[row.order.value].tronAsk.Some?
                          && Buys(db.payments, p, db.orders[row.order.value], row.order.value);
            && (row.status.Confirming? || Settled(row))
            && (row.status.Confirming? ==> total == 0 && !bought)
            && (bought ==> 0 <= chain(txid) - CENTS_TO_USDT6 * total - db.orders[row.order.value].tronAsk.value < CENTS_TO_USDT6)
            && (Settled(row) && !bought ==> total == UsdCents(chain(txid)))
            && (forall other: Id | other != row.user :: GivenFor(db.ledger.rows, other, p) == 0)
  {
    EmptyKeeps(chain);
    RunKeeps(Empty(), events, chain);
    var db := Run(Empty(), events, chain).db;
    var row := db.payments[p];
    OwnersAlone(db, chain, p, row.user);
    forall other: Id | other != row.user ensures GivenFor(db.ledger.rows, other, p) == 0 {
      OwnersAlone(db, chain, p, other);
    }
    assert RowOk(row, |db.orders|, chain) && Balanced(db.payments, db.orders, db.ledger.rows, p);
    if row.status.Confirming? {
      NothingYet(db.payments, db.ledger, p);
      NotBoughtYet(db, chain, p);
    } else if row.order.Some? && db.orders[row.order.value].tronAsk.Some? {
      var o := row.order.value;
      assert SoldOk(db.payments, db.orders[o], o);
      var q: Id :| Buys(db.payments, q, db.orders[o], o);
    }
  }

  /** Whatever sweeps overlap or die, a transfer is bound to one row and stays there, a settled row
      stays settled and a PAID one PAID, no row is CONFIRMING twice, and nothing that runs later moves
      another cent for it. */
  lemma SettledAtMostOnce(events: seq<Event>, later: seq<Event>, chain: Amounts, p: Id, txid: Txid)
    requires p < |Run(Empty(), events, chain).db.payments| && Carries(Run(Empty(), events, chain).db.payments[p], txid)
    ensures var db, db' := Run(Empty(), events, chain).db, Run(Run(Empty(), events, chain), later, chain).db;
            && p < |db'.payments| && Carries(db'.payments[p], txid)
            && (forall q: Id | q < |db'.payments| && Carries(db'.payments[q], txid) :: q == p)
            && (db.payments[p].status.Paid? ==> db'.payments[p].status.Paid?)
            && (db'.payments[p].status.Confirming? ==> db.payments[p].status.Confirming?)
            && (Settled(db.payments[p]) ==>
                  && Settled(db'.payments[p])
                  && PaymentTotal(db'.ledger.rows, p) == PaymentTotal(db.ledger.rows, p)
                  && BoughtAsk(db'.payments, db'.orders, p) == BoughtAsk(db.payments, db.orders, p))
  {
    EmptyKeeps(chain);
    RunKeeps(Empty(), events, chain);
    var s := Run(Empty(), events, chain);
    RunKeeps(s, later, chain);
    assert PaymentGrows(s.db.payments[p], Run(s, later, chain).db.payments[p]);
  }

  /** The ledger moves for a TRON payment in one step only: the one in which it leaves CONFIRMING. */
  lemma MovesOnlyWhenSettled(events: seq<Event>, e: Event, chain: Amounts, p: Id)
    requires p < |Run(Empty(), events, chain).db.payments| && Run(Empty(), events, chain).db.payments[p].provider.Tron?
    ensures var s := Run(Empty(), events, chain);
            var db, db' := s.db, Apply(s, e, chain).db;
            && p < |db'.payments|
            && (PaymentTotal(db'.ledger.rows, p) != PaymentTotal(db.ledger.rows, p) ==>
                  db.payments[p].status.Confirming? && Settled(db'.payments[p]) && PaymentTotal(db.ledger.rows, p) == 0)
  {
    EmptyKeeps(chain);
    RunKeeps(Empty(), events, chain);
    var s := Run(Empty(), events, chain);
    StepKeeps(s, e, chain);
    var db, db' := s.db, Apply(s, e, chain).db;
    assert PaymentGrows(db.payments[p], db'.payments[p]);
    if !Settled(db.payments[p]) {
      NothingYet(db.payments, db.ledger, p);
      if !Settled(db'.payments[p]) {
        NothingYet(db'.payments, db'.ledger, p);
      }
    }
  }

  // ---------------------------------------------------------------- the tags a sweep frees

  /** The tag protocol lets a row evolve in three ways only. Expiring, binding and settling an
      invoice are such ways, so in every reachable state of the protocol a sweep may take them: no
      held tag is freed and none is taken. */
  lemma ScanEvolvesInvoices(s: Tags, delta: nat, i: Id, swept: int, c: Candidate, txid: Txid, received: nat, at: int, amount: int)
    requires TagInv(s, delta) && i < |s.rows| && s.rows[i].provider.Tron? && swept <= s.now
    ensures RowEvolves(s.rows[i], ExpireStaleTx(s.rows, swept)[i], s.now)
    ensures var tx := BindTx(s.rows, c, txid, received, at);
            tx.Ok? && c.id == i && c.txHash.None? && (s.rows[i].status.Pending? || s.rows[i].status.Expired?) ==>
              RowEvolves(s.rows[i], tx.value.payments[i], s.now)
    ensures var tx := ClaimPayment(s.rows, i, PaymentStatus.Paid, amount);
            tx.Ok? ==> RowEvolves(s.rows[i], tx.value[i], s.now)
    ensures var tx := ClaimPayment(s.rows, i, Underpaid, amount);
            tx.Ok? && amount == s.rows[i].amount ==> RowEvolves(s.rows[i], tx.value[i], s.now)
  {
    assert TagProtocol.RowOk(s, s.rows[i], delta);
  }

  /** Money that arrives for an order paid on another rail is credited and an operator is told; a late
      payment for an order that is over is credited quietly. */
  lemma DoublePaymentIsFlagged(db: Db, chain: Amounts, seen: Seen, txid: Txid)
    requires Books(db, chain) && SeenOk(db, seen, txid) && seen.row.order.Some? && txid !in db.flagged
    requires SettleLateTx(db, seen, chain(txid), txid).Ok?
    ensures var after := SettleLateTx(db, seen, chain(txid), txid).value;
            var status := db.orders[seen.row.order.value].status;
            && GivenFor(after.ledger.rows, db.orders[seen.row.order.value].user, seen.id) == UsdCents(chain(txid))
            && (txid in after.flagged <==> status.Paid? || status.Delivering? || status.Delivered?)
  {
    LateSettles(db, chain, seen, txid);
    var late := LateTx(db, seen, chain(txid)).value;
    assert RowOk(db.payments[seen.id], |db.orders|, chain);
    NothingYet(db.payments, db.ledger, seen.id);
    TotalAfter(db.ledger, late.ledger, seen.id, UsdCents(chain(txid)), seen.id);
    SettleKeeps(db, late, chain, seen.id, UsdCents(chain(txid)), None);
    OwnersAlone(late, chain, seen.id, db.payments[seen.id].user);
    assert BuyerPays(db.payments, db.orders, seen.id);
  }

  // ---------------------------------------------------------------- the steps of one settlement

  /** `n` steps of one sweep with nothing in between. */
  function Steps(s: Wallet, p: nat, n: nat, clock: int, chain: Amounts): Wallet
    requires p in s.sweeps
    decreases n
  {
    if n == 0 then s else Steps(Continue(s, p, clock, chain), p, n - 1, clock, chain)
  }

  lemma DoesAgain(s: Wallet, db: Db, p: nat, task: Task, next: Task)
    requires p in s.sweeps
    ensures Does(Does(s, p, task).(db := db), p, next) == Does(s.(db := db), p, next)
  {
    assert s.sweeps[p := s.sweeps[p].(task := task)][p := s.sweeps[p].(task := next)] == s.sweeps[p := s.sweeps[p].(task := next)];
  }

  lemma {:induction false} IdleStays(s: Wallet, p: nat, n: nat, clock: int, chain: Amounts)
    requires p in s.sweeps && s.sweeps[p].task.Idle?
    ensures Steps(s, p, n, clock, chain) == s
    decreases n
  {
    if n > 0 {
      IdleStays(s, p, n - 1, clock, chain);
    }
  }

  lemma LackingEnds(s: Wallet, p: nat, n: nat, seen: Seen, expected: int, txid: Txid, clock: int, chain: Amounts)
    requires p in s.sweeps && n >= 1
    ensures Steps(Does(s, p, Lacking(seen, expected, txid)), p, n, clock, chain)
         == Does(s.(db := Committed(s.db, UnderpaidTx(s.db, seen, expected, chain(txid)))), p, Idle)
  {
    hide UnderpaidTx;
    var end := Does(s.(db := Committed(s.db, UnderpaidTx(s.db, seen, expected, chain(txid)))), p, Idle);
    DoesAgain(s, end.db, p, Lacking(seen, expected, txid), Idle);
    IdleStays(end, p, n - 1, clock, chain);
  }

  lemma CreditedEnds(s: Wallet, p: nat, n: nat, seen: Seen, txid: Txid, clock: int, chain: Amounts)
    requires p in s.sweeps && n >= 1
    ensures Steps(Does(s, p, Credited(seen, txid)), p, n, clock, chain)
         == Does(s.(db := FlagDoublePaid(s.db, seen.row.order, txid)), p, Idle)
  {
    hide FlagDoublePaid;
    var end := Does(s.(db := FlagDoublePaid(s.db, seen.row.order, txid)), p, Idle);
    DoesAgain(s, end.db, p, Credited(seen, txid), Idle);
    IdleStays(end, p, n - 1, clock, chain);
  }

  lemma LateEnds(s: Wallet, p: nat, n: nat, seen: Seen, txid: Txid, clock: int, chain: Amounts)
    requires p in s.sweeps && n >= 2
    ensures Steps(Does(s, p, Late(seen, txid)), p, n, clock, chain)
         == Does(s.(db := Committed(s.db, SettleLateTx(s.db, seen, chain(txid), txid))), p, Idle)
  {
    hide LateTx, FlagDoublePaid;
    var tx := LateTx(s.db, seen, chain(txid));
    var credited := s.(db := Committed(s.db, tx));
    DoesAgain(s, credited.db, p, Late(seen, txid), if tx.Ok? then Credited(seen, txid) else Idle);
    if tx.Ok? {
      CreditedEnds(credited, p, n - 1, seen, txid, clock, chain);
    } else {
      IdleStays(Does(credited, p, Idle), p, n - 1, clock, chain);
    }
  }

  lemma ShortEnds(s: Wallet, p: nat, n: nat, seen: Seen, expected: int, txid: Txid, clock: int, chain: Amounts)
    requires p in s.sweeps && n >= 3 && chain(txid) < expected
    requires seen.row.order.Some? && seen.order.Some? && !OrderClosed(seen.order, s.sweeps[p].now)
    ensures var prior := PriorUnderpaidCents(s.db, seen.row.order.value);
            Steps(Does(s, p, Short(seen, expected, txid, prior)), p, n, clock, chain)
            == Does(s.(db := Committed(s.db, SettleTx(s.db, seen, expected, chain(txid), txid, s.sweeps[p].now, clock))), p, Idle)
  {
    hide OrderCompletedTx, UnderpaidTx, SettleLateTx, OrderClosed, PriorUnderpaidCents;
    var prior := PriorUnderpaidCents(s.db, seen.row.order.value);
    var tx := OrderCompletedTx(s.db, seen, expected, chain(txid), txid, clock);
    var short := Short(seen, expected, txid, prior);
    if chain(txid) + prior * CENTS_TO_USDT6 < expected || tx == Err(InsufficientBalance) {
      DoesAgain(s, s.db, p, short, Lacking(seen, expected, txid));
      LackingEnds(s, p, n - 1, seen, expected, txid, clock, chain);
    } else if tx.Ok? && tx.value.None? {
      DoesAgain(s, s.db, p, short, Late(seen, txid));
      LateEnds(s, p, n - 1, seen, txid, clock, chain);
    } else {
      var end := if tx.Ok? then tx.value.value else s.db;
      DoesAgain(s, end, p, short, Idle);
      IdleStays(Does(s.(db := end), p, Idle), p, n - 1, clock, chain);
    }
  }

  /** Left alone, the steps of a settlement are `settle`. */
  lemma StepsAreSettle(s: Wallet, p: nat, n: nat, seen: Seen, expected: int, txid: Txid, clock: int, chain: Amounts)
    requires p in s.sweeps && n >= 4
    ensures Steps(Does(s, p, Settling(seen, expected, txid)), p, n, clock, chain)
         == Does(s.(db := Committed(s.db, SettleTx(s.db, seen, expected, chain(txid), txid, s.sweeps[p].now, clock))), p, Idle)
  {
    hide TopupTx, SettleLateTx, OrderPaidTx, OrderClosed, PriorUnderpaidCents;
    var settling := Settling(seen, expected, txid);
    if seen.row.order.None? || seen.order.None? {
      var end := Committed(s.db, TopupTx(s.db, seen, chain(txid)));
      DoesAgain(s, end, p, settling, Idle);
      IdleStays(Does(s.(db := end), p, Idle), p, n - 1, clock, chain);
    } else if OrderClosed(seen.order, s.sweeps[p].now) {
      DoesAgain(s, s.db, p, settling, Late(seen, txid));
      LateEnds(s, p, n - 1, seen, txid, clock, chain);
    } else if chain(txid) < expected {
      DoesAgain(s, s.db, p, settling, Short(seen, expected, txid, PriorUnderpaidCents(s.db, seen.row.order.value)));
      ShortEnds(s, p, n - 1, seen, expected, txid, clock, chain);
    } else {
      PaidEnds(s, p, n, seen, expected, txid, clock, chain);
    }
  }

  lemma PaidEnds(s: Wallet, p: nat, n: nat, seen: Seen, expected: int, txid: Txid, clock: int, chain: Amounts)
    requires p in s.sweeps && n >= 3 && chain(txid) >= expected
    requires seen.row.order.Some? && seen.order.Some? && !OrderClosed(seen.order, s.sweeps[p].now)
    ensures Steps(Does(s, p, Settling(seen, expected, txid)), p, n, clock, chain)
         == Does(s.(db := Committed(s.db, SettleTx(s.db, seen, expected, chain(txid), txid, s.sweeps[p].now, clock))), p, Idle)
  {
    hide TopupTx, SettleLateTx, OrderPaidTx, OrderClosed, PriorUnderpaidCents;
    var tx := OrderPaidTx(s.db, seen, expected, chain(txid), txid, clock);
    var settling := Settling(seen, expected, txid);
    if tx.Ok? && tx.value.None? {
      DoesAgain(s, s.db, p, settling, Late(seen, txid));
      LateEnds(s, p, n - 1, seen, txid, clock, chain);
    } else {
      var end := if tx.Ok? then tx.value.value else s.db;
      DoesAgain(s, end, p, settling, Idle);
      IdleStays(Does(s.(db := end), p, Idle), p, n - 1, clock, chain);
    }
  }
}
