/** The order pipeline and the wallet on one database. Each was proved against what the other may do:
    here every step of the pipeline is shown to be a step the wallet tolerates, and every step of the
    wallet one the pipeline tolerates, so the promises of both hold in every joint run. */
module WholeShop {
  import opened Schema
  import opened Sums
  import L = LedgerBook
  import opened Money
  import opened Orders
  import opened Subscriptions
  import opened Delivery
  import TagProtocol
  import opened TronMatch
  import opened ChainScan
  import P = Pipeline
  import S = Settlement
  import F = SoldInFull
  import T = Topup
  import Promises

  /** `past` is what Pipeline remembers of a run; `strayed` the orders some sweep went astray to. */
  datatype State = State(db: Db, work: map<nat, P.Work>, past: P.Past, sweeps: map<nat, S.Sweep>, strayed: set<Id>)

  datatype Event = Core(core: P.Event) | Chain(step: S.Event)

  function CoreOf(s: State): P.Shop {
    P.Shop(s.db, s.work, s.past)
  }

  function WalletOf(s: State): S.Wallet {
    S.Wallet(s.db, s.sweeps)
  }

  /** A step of a rail that is not modelled here must be one both sides tolerate. */
  ghost function Apply(s: State, e: Event, chain: S.Amounts): State {
    match e
    case Core(c) =>
      if c.Rail? && !S.Rely(s.db, c.after) then s
      else
        var s' := P.Apply(CoreOf(s), c);
        State(s'.db, s'.work, s'.past, s.sweeps, s.strayed)
    case Chain(w) =>
      if w.Others? then s
      else
        var s' := S.Apply(WalletOf(s), w, chain);
        State(s'.db, s.work, P.Railed(s.past, P.Touched(s.db, s'.db)), s'.sweeps, s.strayed + F.Strays(WalletOf(s), w, chain))
  }

  function Empty(plans: seq<Plan>): State {
    State(P.Empty(plans).db, map[], P.NOTHING, map[], {})
  }

  /** A joint run from the empty shop, state by state. */
  ghost predicate IsRun(plans: seq<Plan>, run: seq<State>, events: seq<Event>, chain: S.Amounts) {
    && |run| == |events| + 1 && run[0] == Empty(plans)
    && forall i: nat {:trigger events[i]} | i < |events| :: run[i + 1] == Apply(run[i], events[i], chain)
  }

  // ---------------------------------------------------------------- the pipeline, seen from the wallet

  /** It writes no payment, books about no payment, and leaves what a USDT sale wrote alone. */
  ghost predicate Quiet(db: Db, db': Db) {
    && db'.payments == db.payments
    && |db.orders| <= |db'.orders|
    && (forall o: Id | o < |db.orders| ::
          db'.orders[o].externalId == db.orders[o].externalId && db'.orders[o].tronAsk == db.orders[o].tronAsk)
    && (forall o: Id | |db.orders| <= o < |db'.orders| :: S.FreshOrder(db'.orders[o]))
    && |db.ledger.rows| <= |db'.ledger.rows|
    && (forall n: nat | |db.ledger.rows| <= n < |db'.ledger.rows| :: db'.ledger.rows[n].payment.None?)
    && (forall k | k in db'.ledger.records && k !in db.ledger.records :: S.PaymentOfKey(k).None?)
  }

  lemma QuietIsTolerated(db: Db, db': Db, h: P.Past)
    requires Quiet(db, db') && P.Grows(db, db', h)
    ensures S.Rely(db, db')
  {
    forall o: Id | o < |db.orders| ensures S.OrderKept(db.orders[o], db'.orders[o]) {
      assert P.Follows(db.orders[o], db'.orders[o], o, h);
    }
  }

  lemma SubscribeQuiet(db: Db, o: Id, now: int)
    ensures CreateSubscriptionTx(db, o, now).Ok? ==>
              CreateSubscriptionTx(db, o, now).value == db.(subs := CreateSubscriptionTx(db, o, now).value.subs)
  {
  }

  lemma PayQuiet(db: Db, o: Id, now: int)
    ensures PayFromBalanceTx(db, o, now).Ok? ==> Quiet(db, PayFromBalanceTx(db, o, now).value)
  {
  }

  lemma ExpireQuiet(db: Db, o: Id)
    ensures ExpireOrderTx(db, o).Ok? ==> Quiet(db, ExpireOrderTx(db, o).value)
  {
  }

  lemma RefundQuiet(db: Db, o: Id)
    ensures RefundOrderTx(db, o).Ok? ==> Quiet(db, RefundOrderTx(db, o).value)
  {
  }

  lemma FailQuiet(db: Db, o: Id)
    ensures FailAndRefundTx(db, o).Ok? ==> Quiet(db, FailAndRefundTx(db, o).value)
  {
  }

  lemma PoolQuiet(db: Db, o: Id)
    ensures DeliverFromPoolTx(db, o).Ok? ==> Quiet(db, DeliverFromPoolTx(db, o).value)
  {
  }

  lemma ManualQuiet(db: Db, o: Id, text: string, now: int)
    ensures ManualCommitTx(db, o, text, now).Ok? ==> Quiet(db, ManualCommitTx(db, o, text, now).value)
  {
    hide CreateSubscriptionTx;
    if ManualCommitTx(db, o, text, now).Ok? {
      SubscribeQuiet(MarkDeliveredTx(MarkDeliveringTx(db, o).value, o, Trim(text)).value, o, now);
    }
  }

  lemma TransactedQuiet(db: Db, e: P.Event)
    ensures Quiet(db, P.Transacted(db, e))
  {
    hide Quiet, PayFromBalanceTx, ExpireOrderTx, RefundOrderTx, ManualCommitTx, CreateOrderTx;
    QuietSelf(db);
    match e {
      case Pay(o, now) => PayQuiet(db, o, now);
      case Expire(o) => ExpireQuiet(db, o);
      case RefundIt(o) => RefundQuiet(db, o);
      case Manual(o, text, now) => ManualQuiet(db, o, text, now);
      case Create(input, now) => CreateQuiet(db, input, now);
      case Book(call) => if P.Transacted(db, e) != db { BookQuiet(db, call); }
      case _ => EditedQuiet(db, e);
    }
  }

  lemma BookQuiet(db: Db, call: L.Call)
    requires call.entry.key.OtherKey? && call.entry.payment.None?
    ensures Quiet(db, db.(ledger := L.Post(db.ledger, call).ledger))
  {
  }

  lemma EditedQuiet(db: Db, e: P.Event)
    requires !e.Pay? && !e.Expire? && !e.RefundIt? && !e.Manual? && !e.Create? && !e.Book?
    ensures Quiet(db, P.Transacted(db, e))
  {
    var db' := P.Transacted(db, e);
    assert db' == db.(stock := db'.stock, promos := db'.promos, plans := db'.plans, subs := db'.subs);
  }

  lemma CreateQuiet(db: Db, input: OrderInput, now: int)
    ensures var tx := CreateOrderTx(db, input, now);
            tx.Ok? && input.expiresInMs == DEFAULT_ORDER_EXPIRY_MS ==> Quiet(db, tx.value.db)
  {
  }

  lemma PromosQuiet(db: Db, promos: seq<Promo>)
    ensures Quiet(db, db.(promos := promos))
  {
  }

  lemma CoreQuiet(s: P.Shop, e: P.Event)
    requires !e.Rail?
    ensures Quiet(s.db, P.Apply(s, e).db)
  {
    hide Quiet, P.Transacted, P.Proceed;
    QuietSelf(s.db);
    TransactedQuiet(s.db, e);
    if P.UnderWay(e) && P.At(s, e.process) { ProceedQuiet(s, e.process, s.work[e.process], e); }
    if e.EditPromo? { PromosQuiet(s.db, P.Apply(s, e).db.promos); }
  }

  lemma QuietSelf(db: Db)
    ensures Quiet(db, db)
  {
  }

  lemma HopQuiet(db: Db, o: Id, payload: string)
    requires o < |db.orders|
    ensures Quiet(db, WithStatus(db, o, Delivering)) && Quiet(db, WithPayload(db, o, payload))
  {
  }

  lemma SubscribedQuiet(db: Db, o: Id, now: int)
    ensures Quiet(db, Subscribed(db, o, now))
  {
    SubscribeQuiet(db, o, now);
    hide CreateSubscriptionTx;
  }

  lemma RenewQuiet(db: Db, seen: Snapshot, now: int)
    ensures RenewTx(db, seen, now).Ok? ==> Quiet(db, RenewTx(db, seen, now).value)
  {
  }

  lemma ProceedQuiet(s: P.Shop, p: nat, w: P.Work, e: P.Event)
    requires w.Renewing? || w.order < |s.db.orders|
    ensures Quiet(s.db, P.Proceed(s, p, w, e).db)
  {
    hide Quiet, FailAndRefundTx, RenewTx, CreateSubscriptionTx, DeliverFromPoolTx;
    QuietSelf(s.db);
    match w {
      case Opened(o) =>
      case WritingDelivering(o) => HopQuiet(s.db, o, "");
      case Dispatching(o) => PoolQuiet(s.db, o); FailQuiet(s.db, o);
      case WritingDelivered(o, payload) => HopQuiet(s.db, o, payload);
      case Settling(o) => FailQuiet(s.db, o);
      case Subscribing(o) => if e.Subscribe? { SubscribedQuiet(s.db, o, e.now); }
      case Renewing(seen) => if e.Renew? { RenewQuiet(s.db, seen, e.now); }
    }
  }

  // ---------------------------------------------------------------- the wallet, seen from the pipeline

  /** The ledger's part of what a rail may do. */
  ghost predicate RailLedger(orders: seq<Order>, l: Ledger, l': Ledger) {
    && L.Extends(l, l') && (L.Sound(l) ==> L.Sound(l'))
    && (forall i: nat | |l.rows| <= i < |l'.rows| :: !l'.rows[i].kind.Refund? && P.BuyersRow(orders, l'.rows[i]))
    && (forall k | k in l'.records && k !in l.records :: P.KeyOrder(k).None? && !k.RenewalOf?)
  }

  lemma BookedRails(orders: seq<Order>, l: Ledger, c: L.Call)
    requires !c.entry.kind.Refund? && (c.entry.order.Some? ==> c.entry.order.value < |orders| && c.entry.user == orders[c.entry.order.value].user)
    requires P.KeyOrder(c.entry.key).None? && !c.entry.key.RenewalOf?
    ensures L.Booked(l, c).Ok? ==> RailLedger(orders, l, L.Booked(l, c).value)
  {
    if L.Sound(l) { L.PostSound(l, c); }
    hide L.Sound;
  }

  /** A settlement's tables: payments, flags, the ledger as above, and at most one PENDING order sold. */
  ghost predicate RailTables(db: Db, db': Db) {
    && db' == db.(orders := db'.orders, payments := db'.payments, ledger := db'.ledger, flagged := db'.flagged, anomalies := db'.anomalies)
    && |db'.orders| == |db.orders|
    && (forall o: Id | o < |db.orders| :: db'.orders[o] == db.orders[o] || P.PaidByRail(db.orders[o], db'.orders[o]))
    && RailLedger(db.orders, db.ledger, db'.ledger)
  }

  lemma TablesAreTolerated(db: Db, db': Db)
    requires RailTables(db, db')
    ensures P.RailMoves(db, db')
  {
    hide L.Sound;
  }

  /** The copy is of a payment of its order's buyer. */
  predicate OfBuyer(db: Db, seen: Seen) {
    seen.row.order.Some? ==> seen.row.order.value < |db.orders| && seen.row.user == db.orders[seen.row.order.value].user
  }

  lemma SelfRails(db: Db, payments: seq<Payment>, flagged: set<Txid>)
    ensures RailTables(db, db.(payments := payments, flagged := flagged))
  {
    hide L.Sound;
  }

  lemma PaidRails(db: Db, seen: Seen, expected: int, received: nat, txid: Txid, now: int)
    requires OfBuyer(db, seen) && received >= expected
    ensures var tx := OrderPaidTx(db, seen, expected, received, txid, now);
            tx.Ok? && tx.value.Some? ==> RailTables(db, tx.value.value)
  {
    hide L.Sound;
    SelfRails(db, db.payments, db.flagged);
    BookedRails(db.orders, db.ledger, L.Credit(TronEntry(seen, UsdCents(received - expected), LedgerType.TopUp, OverpaidOf(seen.id))));
    hide L.Booked, RailLedger;
  }

  lemma CompletedRails(db: Db, seen: Seen, expected: int, received: nat, txid: Txid, now: int)
    requires OfBuyer(db, seen) && received < expected
    ensures var tx := OrderCompletedTx(db, seen, expected, received, txid, now);
            tx.Ok? && tx.value.Some? ==> RailTables(db, tx.value.value)
  {
    BookedRails(db.orders, db.ledger, L.Debit(TronEntry(seen, CeilCents(expected - received), LedgerType.Purchase, ReclaimOf(seen.id))));
    hide L.Booked, RailLedger, L.Sound;
  }

  lemma CreditRails(db: Db, seen: Seen, expected: int, received: nat)
    requires OfBuyer(db, seen)
    ensures UnderpaidTx(db, seen, expected, received).Ok? ==> RailTables(db, UnderpaidTx(db, seen, expected, received).value)
    ensures LateTx(db, seen, received).Ok? ==> RailTables(db, LateTx(db, seen, received).value)
    ensures TopupTx(db, seen, received).Ok? ==> RailTables(db, TopupTx(db, seen, received).value)
  {
    hide L.Sound;
    SelfRails(db, db.payments, db.flagged);
    var cents := UsdCents(received);
    BookedRails(db.orders, db.ledger, L.Credit(TronEntry(seen, cents, LedgerType.TopUp, UnderpaidOf(seen.id))));
    BookedRails(db.orders, db.ledger, L.Credit(TronEntry(seen, cents, LedgerType.TopUp, LateOf(seen.id))));
    BookedRails(db.orders, db.ledger,
                L.Credit(L.Entry(seen.row.user, cents, LedgerType.TopUp, None, Some(seen.id), TopupOf(seen.id))));
    hide L.Booked, RailLedger;
  }

  lemma SeenOfBuyer(db: Db, chain: S.Amounts, seen: Seen, txid: Txid)
    requires S.Books(db, chain) && S.SeenOk(db, seen, txid)
    ensures OfBuyer(db, seen)
  {
    assert S.BuyerPays(db.payments, db.orders, seen.id);
  }

  lemma ContinueRails(s: S.Wallet, p: nat, clock: int, chain: S.Amounts)
    requires S.Inv(s, chain) && p in s.sweeps
    ensures RailTables(s.db, S.Continue(s, p, clock, chain).db)
  {
    hide RailTables, S.Inv, S.Books, S.SweepOk, S.SeenOk, TopupTx, LateTx, UnderpaidTx, OrderPaidTx, OrderCompletedTx, See,
         TagProtocol.OrderClosed, PriorUnderpaidCents, OfBuyer;
    SelfRails(s.db, s.db.payments, s.db.flagged);
    S.TaskIsOk(s, p, chain);
    match s.sweeps[p].task {
      case Loading =>
      case Idle =>
      case Reading(i, _, txid) =>
      case Settling(seen, expected, txid) =>
        SeenOfBuyer(s.db, chain, seen, txid);
        CreditRails(s.db, seen, expected, chain(txid));
        if chain(txid) >= expected { PaidRails(s.db, seen, expected, chain(txid), txid, clock); }
      case Short(seen, expected, txid, prior) =>
        SeenOfBuyer(s.db, chain, seen, txid);
        if chain(txid) < expected { CompletedRails(s.db, seen, expected, chain(txid), txid, clock); }
      case Lacking(seen, expected, txid) =>
        SeenOfBuyer(s.db, chain, seen, txid);
        CreditRails(s.db, seen, expected, chain(txid));
      case Late(seen, txid) =>
        SeenOfBuyer(s.db, chain, seen, txid);
        CreditRails(s.db, seen, 0, chain(txid));
      case Credited(seen, txid) =>
        SelfRails(s.db, s.db.payments, FlagDoublePaid(s.db, seen.row.order, txid).flagged);
    }
  }

  lemma ChainRails(s: S.Wallet, e: S.Event, chain: S.Amounts)
    requires S.Inv(s, chain) && !e.Others?
    ensures P.RailMoves(s.db, S.Apply(s, e, chain).db)
  {
    var s' := S.Apply(s, e, chain);
    if e.Go? && e.sweep in s.sweeps {
      ContinueRails(s, e.sweep, e.clock, chain);
    } else {
      OtherStepsOnly(s, e, chain);
      SelfRails(s.db, s'.db.payments, s'.db.flagged);
    }
    hide RailTables, S.Apply, S.Inv;
    TablesAreTolerated(s.db, s'.db);
  }

  lemma OtherStepsOnly(s: S.Wallet, e: S.Event, chain: S.Amounts)
    requires !e.Others? && (e.Go? ==> e.sweep !in s.sweeps)
    ensures var db' := S.Apply(s, e, chain).db;
            db' == s.db.(payments := db'.payments, flagged := db'.flagged)
  {
    hide MatchTransfer, BindTx, ExpectedFor, S.Rely, ExpireStaleTx;
  }

  // ---------------------------------------------------------------- CryptoBot and Stars, seen from both

  /** A copy of a CryptoBot or Stars payment. */
  predicate OtherRails(db: Db, seen: Seen) {
    && seen.id < |db.payments| && !db.payments[seen.id].provider.Tron?
    && (seen.row.order.Some? ==> seen.row.order.value < |db.orders|)
  }

  /** A step of these rails that writes the one payment, books at most its top-up and sells at most one order. */
  ghost predicate SideStep(db: Db, after: Db, i: Id) {
    && RailTables(db, after)
    && i < |db.payments| && !db.payments[i].provider.Tron?
    && |after.payments| == |db.payments| && after.payments == db.payments[i := after.payments[i]] && !after.payments[i].provider.Tron?
    && (forall o: Id | o < |db.orders| :: after.orders[o].externalId == db.orders[o].externalId)
    && (forall o: Id | o < |db.orders| :: after.orders[o].tronAsk == db.orders[o].tronAsk)
    && (forall n: nat | |db.ledger.rows| <= n < |after.ledger.rows| :: after.ledger.rows[n].payment == Some(i))
    && (forall k | k in after.ledger.records && k !in db.ledger.records :: S.PaymentOfKey(k) == Some(i))
  }

  lemma SideStepTolerated(db: Db, after: Db, i: Id)
    requires SideStep(db, after, i)
    ensures P.RailMoves(db, after) && S.Rely(db, after)
  {
    TablesAreTolerated(db, after);
    hide L.Sound, P.BuyersRow;
    forall o: Id | o < |db.orders| ensures S.OrderKept(db.orders[o], after.orders[o]) {
      assert after.orders[o] == db.orders[o] || P.PaidByRail(db.orders[o], after.orders[o]);
    }
  }

  lemma PaymentWritten(db: Db, i: Id, row: Payment, anomalies: seq<Anomaly>)
    requires i < |db.payments| && !db.payments[i].provider.Tron? && !row.provider.Tron?
    ensures SideStep(db, db.(payments := db.payments[i := row], anomalies := anomalies), i)
  {
    hide L.Sound;
  }

  lemma CreditSteps(db: Db, seen: Seen, row: Payment, cents: int)
    requires OtherRails(db, seen) && !row.provider.Tron?
    ensures var tx := T.Credited(T.Claimed(db, seen.id, row), seen.id, seen.row.user, cents);
            tx.Ok? ==> SideStep(db, tx.value, seen.id)
  {
    BookedRails(db.orders, db.ledger, L.Credit(T.TopupEntry(seen.id, seen.row.user, cents)));
    hide RailLedger;
  }

  lemma PollSteps(db: Db, seen: Seen, now: int)
    requires OtherRails(db, seen)
    ensures var tx := T.SettlePaidInvoiceTx(db, seen, now);
            tx.Ok? ==> SideStep(db, tx.value, seen.id)
  {
    var row := db.payments[seen.id];
    var paid := row.(status := PaymentStatus.Paid);
    PaymentWritten(db, seen.id, row, db.anomalies);
    PaymentWritten(db, seen.id, paid, db.anomalies + [Anomaly(seen.id, seen.row.order, PaidNoOrder)]);
    PaymentWritten(db, seen.id, paid, db.anomalies + [Anomaly(seen.id, seen.row.order, PaidOrderClosed)]);
    CreditSteps(db, seen, paid, seen.row.amount);
    SaleSteps(db, seen, now);
    assert db.payments[seen.id := row] == db.payments;
    hide SideStep, T.Credited, T.SellInvoiced;
  }

  lemma SaleSteps(db: Db, seen: Seen, now: int)
    requires OtherRails(db, seen)
    ensures var sold := T.SellInvoiced(db, seen, now);
            sold.Some? ==> SideStep(db, sold.value, seen.id)
  {
    hide L.Sound;
  }

  lemma HookSteps(db: Db, seen: Seen, cents: Option<nat>, receipt: T.StarsReceipt)
    requires OtherRails(db, seen)
    ensures var tx := T.WebhookTx(db, seen, cents);
            tx.Ok? ==> SideStep(db, tx.value, seen.id)
    ensures var tx := T.SettleStarsTx(db, seen, receipt);
            tx.Ok? ==> SideStep(db, tx.value, seen.id)
    ensures SideStep(db, T.ExpirePolled(db, seen), seen.id) && SideStep(db, T.MarkAmountMismatchTx(db, seen), seen.id)
  {
    var row := db.payments[seen.id];
    var paid := row.(status := PaymentStatus.Paid, topupReference := seen.row.topupReference);
    PaymentWritten(db, seen.id, row, db.anomalies);
    PaymentWritten(db, seen.id, row.(status := PaymentStatus.Expired), db.anomalies);
    PaymentWritten(db, seen.id, row.(status := Underpaid, topupReference := false), db.anomalies);
    PaymentWritten(db, seen.id, row.(status := Underpaid), db.anomalies + [Anomaly(seen.id, seen.row.order, AmountMismatch)]);
    if cents.Some? { CreditSteps(db, seen, paid, cents.value); }
    CreditSteps(db, seen, paid, seen.row.received);
    assert db.payments[seen.id := row] == db.payments;
    hide SideStep, T.Credited, T.Honours;
  }

  /** What a transaction of the CryptoBot poll, its webhook or the Stars update may leave. */
  predicate BySideRail(db: Db, after: Db, seen: Seen, cents: Option<nat>, receipt: T.StarsReceipt, now: int) {
    || after == Committed(db, T.SettlePaidInvoiceTx(db, seen, now)) || after == Committed(db, T.WebhookTx(db, seen, cents))
    || after == Committed(db, T.SettleStarsTx(db, seen, receipt)) || after == T.ExpirePolled(db, seen)
    || after == T.MarkAmountMismatchTx(db, seen)
  }

  lemma SideRailSteps(db: Db, after: Db, seen: Seen, cents: Option<nat>, receipt: T.StarsReceipt, now: int)
    requires OtherRails(db, seen) && BySideRail(db, after, seen, cents, receipt, now)
    ensures SideStep(db, after, seen.id)
  {
    PollSteps(db, seen, now);
    HookSteps(db, seen, cents, receipt);
    PaymentWritten(db, seen.id, db.payments[seen.id], db.anomalies);
    assert db.(payments := db.payments[seen.id := db.payments[seen.id]], anomalies := db.anomalies) == db;
    hide SideStep, T.SettlePaidInvoiceTx, T.WebhookTx, T.SettleStarsTx, T.ExpirePolled, T.MarkAmountMismatchTx;
  }

  /** Every step of these rails is one both machines tolerate, so the joint runs, which let any such step in,
      have them too: what is promised of every joint run is promised with these rails in it. */
  lemma SideRailsJoin(s: State, after: Db, seen: Seen, cents: Option<nat>, receipt: T.StarsReceipt, now: int, chain: S.Amounts)
    requires OtherRails(s.db, seen) && BySideRail(s.db, after, seen, cents, receipt, now)
    ensures P.RailMoves(s.db, after) && S.Rely(s.db, after) && Apply(s, Core(P.Event.Rail(after)), chain).db == after
  {
    hide BySideRail, SideStep, P.RailMoves, S.Rely, P.Touched;
    SideRailSteps(s.db, after, seen, cents, receipt, now);
    SideStepTolerated(s.db, after, seen.id);
  }

  /** Where the poll finds a paid invoice of a PENDING order, the joint run has the order PAID as of now and
      remembers that a rail paid it. */
  lemma PollSaleJoins(s: State, seen: Seen, o: Id, now: int, chain: S.Amounts)
    requires OtherRails(s.db, seen) && seen.row.order == Some(o) && s.db.orders[o].status.Pending?
    ensures var after := Committed(s.db, T.SettlePaidInvoiceTx(s.db, seen, now));
            var s' := Apply(s, Core(P.Event.Rail(after)), chain);
            && s'.db == after && o < |after.orders| && o in P.Touched(s.db, after) && o in s'.past.railed
            && after.orders[o] == s.db.orders[o].(status := OrderStatus.Paid, paidAt := Some(now))
  {
    hide P.RailMoves, S.Rely, T.SettlePaidInvoiceTx, T.SellInvoiced, P.Concerns;
    var after := Committed(s.db, T.SettlePaidInvoiceTx(s.db, seen, now));
    T.PollSellsIff(s.db, seen, o, now);
    assert o in P.Touched(s.db, after);
    hide P.Touched;
    SideRailsJoin(s, after, seen, None, T.StarsReceipt(None, None), now, chain);
  }

  // ---------------------------------------------------------------- every joint run

  ghost predicate Inv(s: State, chain: S.Amounts) {
    P.Inv(CoreOf(s)) && F.FullInv(WalletOf(s), s.strayed, chain)
  }

  /** A step of the pipeline, or of a rail both tolerate, is one of the others for the wallet. */
  lemma CoreTolerated(s: State, c: P.Event, chain: S.Amounts)
    requires P.Inv(CoreOf(s)) && !(c.Rail? && !S.Rely(s.db, c.after))
    ensures var after := P.Apply(CoreOf(s), c).db;
            S.Rely(s.db, after) || after == s.db
  {
    hide P.Inv, P.Apply, S.Rely, P.Grows, Quiet;
    var next := P.Apply(CoreOf(s), c);
    if c.Rail? {
      RailIsItself(CoreOf(s), c);
    } else {
      P.StepKeeps(CoreOf(s), c);
      CoreQuiet(CoreOf(s), c);
      QuietIsTolerated(s.db, next.db, next.past);
    }
  }

  lemma CoreStepKeeps(s: State, c: P.Event, chain: S.Amounts)
    requires Inv(s, chain)
    ensures Inv(Apply(s, Core(c), chain), chain)
  {
    hide P.Inv, P.Apply, F.FullInv, S.Rely, P.Grows;
    P.StepKeeps(CoreOf(s), c);
    if !(c.Rail? && !S.Rely(s.db, c.after)) {
      CoreTolerated(s, c, chain);
      OthersStep(WalletOf(s), s.strayed, P.Apply(CoreOf(s), c).db, chain);
    }
  }

  /** A step of the wallet is one of a rail for the pipeline. */
  lemma ChainTolerated(s: State, w: S.Event, chain: S.Amounts)
    requires Inv(s, chain) && !w.Others?
    ensures S.Inv(WalletOf(s), chain) && P.RailMoves(s.db, S.Apply(WalletOf(s), w, chain).db)
  {
    assert S.Inv(WalletOf(s), chain);
    hide P.Inv, F.FullInv, S.Apply, P.RailMoves, S.Inv;
    ChainRails(WalletOf(s), w, chain);
  }

  lemma ChainStepKeeps(s: State, w: S.Event, chain: S.Amounts)
    requires Inv(s, chain)
    ensures Inv(Apply(s, Chain(w), chain), chain)
  {
    hide P.Inv, F.FullInv, S.Apply, P.RailMoves, P.Touched, P.Grows, F.Strays, S.Inv;
    if !w.Others? {
      F.AnyStepAsks(WalletOf(s), s.strayed, w, chain);
      ChainTolerated(s, w, chain);
      P.RailStep(CoreOf(s), S.Apply(WalletOf(s), w, chain).db);
    }
  }

  lemma RailIsItself(s: P.Shop, c: P.Event)
    requires c.Rail?
    ensures P.Apply(s, c).db == c.after || P.Apply(s, c).db == s.db
  {
    hide P.RailMoves;
  }

  lemma OthersStep(w: S.Wallet, x: set<Id>, after: Db, chain: S.Amounts)
    requires F.FullInv(w, x, chain) && (S.Rely(w.db, after) || after == w.db)
    ensures F.FullInv(w.(db := after), x, chain)
  {
    if S.Rely(w.db, after) {
      assert F.Strays(w, S.Others(after), chain) == {};
      F.StepAsks(w, x, S.Others(after), chain);
      hide F.FullInv, S.Rely;
    } else {
      assert w.(db := after) == w;
    }
  }

  lemma EmptyKeeps(plans: seq<Plan>, chain: S.Amounts)
    ensures Inv(Empty(plans), chain)
  {
    P.EmptyInv(plans);
  }

  lemma StepKeeps(s: State, e: Event, chain: S.Amounts)
    requires Inv(s, chain)
    ensures Inv(Apply(s, e, chain), chain)
  {
    hide *;
    match e {
      case Core(c) => CoreStepKeeps(s, c, chain);
      case Chain(w) => ChainStepKeeps(s, w, chain);
    }
  }

  lemma {:induction false} RunKeeps(plans: seq<Plan>, run: seq<State>, events: seq<Event>, chain: S.Amounts, n: nat)
    requires IsRun(plans, run, events, chain) && n < |run|
    ensures Inv(run[n], chain)
  {
    if n == 0 {
      EmptyKeeps(plans, chain);
    } else {
      RunKeeps(plans, run, events, chain, n - 1);
      hide Inv, Apply;
      assert run[n] == Apply(run[n - 1], events[n - 1], chain);
      StepKeeps(run[n - 1], events[n - 1], chain);
    }
  }

  /** Neither side loses what it has. */
  ghost predicate Onward(s: State, s': State) {
    P.Grows(s.db, s'.db, s'.past) && P.Remembers(s.past, s'.past) && S.Grows(s.db, s'.db)
  }

  lemma WalletBooks(s: State, chain: S.Amounts)
    requires Inv(s, chain)
    ensures S.Books(s.db, chain)
  {
    hide P.Inv, S.Books;
  }

  lemma CoreOnward(s: State, c: P.Event, chain: S.Amounts)
    requires Inv(s, chain)
    ensures Onward(s, Apply(s, Core(c), chain))
  {
    hide P.Inv, P.Apply, F.FullInv, P.Grows, S.Grows, S.Rely, S.Books;
    WalletBooks(s, chain);
    P.StepKeeps(CoreOf(s), c);
    S.GrowsSelf(s.db, s.db);
    P.GrowsSelf(s.db, s.past);
    if !(c.Rail? && !S.Rely(s.db, c.after)) {
      CoreTolerated(s, c, chain);
      var after := P.Apply(CoreOf(s), c).db;
      if S.Rely(s.db, after) {
        S.RelyKeeps(s.db, after, chain);
      }
    }
  }

  lemma ChainOnward(s: State, w: S.Event, chain: S.Amounts)
    requires Inv(s, chain)
    ensures Onward(s, Apply(s, Chain(w), chain))
  {
    hide P.Inv, F.FullInv, S.Apply, P.RailMoves, P.Touched, P.Grows, F.Strays, S.Inv, S.Grows;
    S.GrowsSelf(s.db, s.db);
    P.GrowsSelf(s.db, s.past);
    if !w.Others? {
      ChainTolerated(s, w, chain);
      S.StepKeeps(WalletOf(s), w, chain);
      P.RailStep(CoreOf(s), S.Apply(WalletOf(s), w, chain).db);
    }
  }

  lemma StepOnward(s: State, e: Event, chain: S.Amounts)
    requires Inv(s, chain)
    ensures Onward(s, Apply(s, e, chain))
  {
    hide *;
    match e {
      case Core(c) => CoreOnward(s, c, chain);
      case Chain(w) => ChainOnward(s, w, chain);
    }
  }

  lemma OnwardTransitive(a: State, b: State, c: State)
    requires Onward(a, b) && Onward(b, c)
    ensures Onward(a, c)
  {
    hide P.Grows, S.Grows;
    P.GrowsTransitive(a.db, b.db, c.db, b.past, c.past);
    S.GrowsTransitive(a.db, b.db, c.db);
  }

  lemma {:induction false} RunOnward(plans: seq<Plan>, run: seq<State>, events: seq<Event>, chain: S.Amounts, n: nat, m: nat)
    requires IsRun(plans, run, events, chain) && n <= m < |run|
    ensures Onward(run[n], run[m])
    decreases m
  {
    hide Inv, Apply, P.Grows, S.Grows;
    if n == m {
      S.GrowsSelf(run[n].db, run[n].db);
      P.GrowsSelf(run[n].db, run[n].past);
    } else {
      hide Onward;
      RunOnward(plans, run, events, chain, n, m - 1);
      RunKeeps(plans, run, events, chain, m - 1);
      assert run[m] == Apply(run[m - 1], events[m - 1], chain);
      StepOnward(run[m - 1], events[m - 1], chain);
      OnwardTransitive(run[n], run[m - 1], run[m]);
    }
  }

  /** What the books of order `o` promise, by what is remembered of it. */
  ghost predicate OrderPromise(s: State, o: Id)
    requires o < |s.db.orders|
  {
    var order := s.db.orders[o];
    && (o !in s.past.spoiled ==> Promises.RefundHolds(s.db, o))
    && (o !in s.past.spoiled && o !in s.past.railed ==> Promises.ChargeHolds(s.db, o))
    && (order.tronAsk.Some? ==> !order.status.Pending? && (o !in s.strayed ==> F.Asked(s.db.payments, o, order.tronAsk.value)))
  }

  /** All at once, at every instant of every joint run, whatever crashes, overlaps or comes late. The wallet
      is conserved to the cent; whatever was paid, given back or left over for an order is on its buyer's
      balance; no order holds two items or two periods; promos are counted and limited;
      every renewal happened once. An order no late write found given back has exact refunds, and, unless
      another rail paid, has cost its buyer its price exactly while it is served. An order no sweep went
      astray to, if bought in USDT, was bought for an amount asked for it. */
  lemma EveryPromiseAtOnce(plans: seq<Plan>, run: seq<State>, events: seq<Event>, chain: S.Amounts, n: nat)
    requires IsRun(plans, run, events, chain) && n < |run|
    ensures var s := run[n];
            && S.Conserved(s.db.payments, s.db.orders, s.db.ledger.rows)
            && Promises.OneEach(s.db) && Promises.BuyersLedger(s.db)
            && (forall p: Id :: Promises.PromoHolds(CoreOf(s), p))
            && (forall sub: Id, expiresAt: int :: Promises.RenewedOnce(s.db, sub, expiresAt))
            && (forall o: Id | o < |s.db.orders| :: OrderPromise(s, o))
  {
    RunKeeps(plans, run, events, chain, n);
    var s := run[n];
    hide IsRun, P.Inv, F.FullInv, Promises.PromoHolds, Promises.RenewedOnce, OrderPromise;
    Promises.InvOneEach(CoreOf(s));
    Promises.InvBuyers(CoreOf(s));
    forall p: Id ensures Promises.PromoHolds(CoreOf(s), p) {
      Promises.InvPromo(CoreOf(s), p);
    }
    forall sub: Id, expiresAt: int ensures Promises.RenewedOnce(s.db, sub, expiresAt) {
      Promises.InvRenewed(CoreOf(s), sub, expiresAt);
    }
    forall o: Id | o < |s.db.orders| ensures OrderPromise(s, o) {
      OrderPromised(s, chain, o);
    }
    WalletConserved(s, chain);
  }

  lemma OrderPromised(s: State, chain: S.Amounts, o: Id)
    requires Inv(s, chain) && o < |s.db.orders|
    ensures OrderPromise(s, o)
  {
    assert o !in s.past.spoiled ==> P.MoneyOf(s.db.orders[o], s.db.ledger, o, o in s.past.railed);
    assert F.AskOrder(s.db, s.strayed, o) && S.SoldOk(s.db.payments, s.db.orders[o], o);
    hide Inv;
  }

  lemma WalletConserved(s: State, chain: S.Amounts)
    requires Inv(s, chain)
    ensures S.Conserved(s.db.payments, s.db.orders, s.db.ledger.rows)
  {
    hide P.Inv;
  }

  /** And from any instant of a joint run to any later one: a SOLD item stays with its order, an order goes on
      and keeps what it handed out unless remembered otherwise, and a transfer that was settled stays on its
      row with all it moved. */
  lemma NothingComesBack(plans: seq<Plan>, run: seq<State>, events: seq<Event>, chain: S.Amounts, n: nat, m: nat)
    requires IsRun(plans, run, events, chain) && n <= m < |run|
    ensures Promises.SoldStays(run[n].db, run[m].db)
    ensures forall o: Id :: Promises.GoesOn(run[n].db, CoreOf(run[m]), o)
    ensures S.Grows(run[n].db, run[m].db)
  {
    RunKeeps(plans, run, events, chain, n);
    RunOnward(plans, run, events, chain, n, m);
    hide IsRun, P.Inv, F.FullInv, P.Grows, S.Grows, Promises.GoesOn, Promises.SoldStays;
    Promises.GrowsOn(CoreOf(run[n]), CoreOf(run[m]), 0);
    forall o: Id ensures Promises.GoesOn(run[n].db, CoreOf(run[m]), o) {
      Promises.GrowsOn(CoreOf(run[n]), CoreOf(run[m]), o);
    }
  }
}
