/** What the order pipeline promises over whole runs, what one uninterrupted fulfilment does, and where
    writes outside a transaction break a promise. */
module Promises {
  import opened Schema
  import opened Sums
  import LedgerBook
  import opened Money
  import opened Orders
  import opened Subscriptions
  import opened Delivery
  import opened Pipeline

  // ---------------------------------------------------------------- late writes

  /** The update of `markDelivering` or `markDelivered` lands on order `o`. */
  predicate Lands(s: Shop, e: Event, o: Id) {
    && o < |s.db.orders|
    && ((e.WriteDelivering? && e.process in s.work && s.work[e.process] == WritingDelivering(o))
        || (e.WriteDelivered? && e.process in s.work && s.work[e.process].WritingDelivered? && s.work[e.process].order == o))
  }

  predicate LandsGivenBack(s: Shop, e: Event, o: Id) { Lands(s, e, o) && GivenBack(StatusOf(s, o)) }
  predicate LandsRefunded(s: Shop, e: Event, o: Id) { Lands(s, e, o) && StatusOf(s, o).Refunded? }
  predicate LandsServed(s: Shop, e: Event, o: Id) { Lands(s, e, o) && s.db.orders[o].payload.Some? }

  /** What it makes of the order. */
  function Landed(s: Shop, e: Event, o: Id): Order
    requires Lands(s, e, o)
  {
    var order := s.db.orders[o];
    if e.WriteDelivering? then order.(status := Delivering)
    else order.(status := Delivered, payload := Some(s.work[e.process].payload))
  }

  lemma LandsStep(s: Shop, e: Event, o: Id)
    requires Lands(s, e, o)
    ensures var s', after := Apply(s, e), Wrote(s, o, Landed(s, e, o));
            s'.db == after.db && s'.past == after.past
  {
  }

  lemma StepRemembers(s: Shop, e: Event, o: Id)
    ensures var past := Apply(s, e).past;
            && (o in past.spoiled <==> o in s.past.spoiled || LandsGivenBack(s, e, o))
            && (o in past.regained <==> o in s.past.regained || LandsRefunded(s, e, o))
            && (o in past.reopened <==> o in s.past.reopened || LandsServed(s, e, o))
  {
    hide Transacted, RailMoves, Touched, TakeSnapshot, WithinLimit, GivenBack, Proceed;
    if UnderWay(e) && At(s, e.process) {
      ProceedRemembers(s, e.process, e, o);
    }
  }

  lemma ProceedRemembers(s: Shop, p: nat, e: Event, o: Id)
    requires UnderWay(e) && e.process == p && At(s, p)
    ensures var past := Proceed(s, p, s.work[p], e).past;
            && (o in past.spoiled <==> o in s.past.spoiled || LandsGivenBack(s, e, o))
            && (o in past.regained <==> o in s.past.regained || LandsRefunded(s, e, o))
            && (o in past.reopened <==> o in s.past.reopened || LandsServed(s, e, o))
  {
    hide RenewTx, DeliverFromPoolTx, FailAndRefundTx, Settled, Subscribed;
  }

  /** What a run remembers: an order is `spoiled`, `regained` or `reopened` exactly if some late write of
      the run landed on it while it was given back, while it was REFUNDED, or while it had its payload. */
  lemma {:induction false} RememberedIff(plans: seq<Plan>, run: seq<Shop>, events: seq<Event>, n: nat, o: Id)
    requires IsRun(plans, run, events) && n < |run|
    ensures o in run[n].past.spoiled <==> exists i: nat :: i < n && LandsGivenBack(run[i], events[i], o)
    ensures o in run[n].past.regained <==> exists i: nat :: i < n && LandsRefunded(run[i], events[i], o)
    ensures o in run[n].past.reopened <==> exists i: nat :: i < n && LandsServed(run[i], events[i], o)
  {
    hide Apply, LandsGivenBack, LandsRefunded, LandsServed;
    if n > 0 {
      RememberedIff(plans, run, events, n - 1, o);
      assert run[n] == Apply(run[n - 1], events[n - 1]);
      StepRemembers(run[n - 1], events[n - 1], o);
    }
  }

  // ---------------------------------------------------------------- the promises, for every run

  /** The REFUND rows of an order total its price if it was given back, and nothing otherwise. */
  predicate RefundHolds(db: Db, o: Id) {
    && o < |db.orders|
    && RefundTotal(db.ledger.rows, o) == if GivenBack(db.orders[o].status) then db.orders[o].amountCents else 0
  }

  /** What was paid for an order, given back for it or left over from it is on its buyer's balance. */
  predicate BuyersLedger(db: Db) {
    forall r | r in db.ledger.rows :: BuyersRow(db.orders, r)
  }

  /** An order has cost its price while it is PAID, DELIVERING or DELIVERED, and nothing otherwise. */
  predicate ChargeHolds(db: Db, o: Id) {
    && o < |db.orders|
    && NetTotal(db.ledger.rows, db.orders[o].user, o) == if Held(db.orders[o].status) then 0 - db.orders[o].amountCents else 0
  }

  /** The uses of a promo are its orders that are not EXPIRED or REFUNDED. */
  predicate CountHolds(db: Db, p: Id) {
    p < |db.promos| && db.promos[p].usedCount == Holders(db.orders, p)
  }

  /** Within its limit, and counted exactly, each unless remembered otherwise. */
  predicate PromoHolds(s: Shop, p: Id) {
    p < |s.db.promos| ==>
      && s.db.promos[p].usedCount >= 0
      && (NoneRegained(s.db.orders, s.past, p) ==> CountHolds(s.db, p))
      && (p !in s.past.lowered && s.db.promos[p].maxUses.Some? && s.db.promos[p].maxUses.value >= 0 ==>
            s.db.promos[p].usedCount <= s.db.promos[p].maxUses.value)
  }

  /** No order holds two items, and none has two periods; the one it has is its buyer's and its plan's. */
  predicate OneEach(db: Db) {
    && (forall i: Id, j: Id | i < |db.stock| && j < |db.stock| && db.stock[i].order.Some?
                              && db.stock[i].order == db.stock[j].order :: i == j)
    && (forall i: Id, j: Id | i < |db.subs| && j < |db.subs| && db.subs[i].order == db.subs[j].order :: i == j)
    && (forall i: Id | i < |db.subs| :: db.subs[i].order < |db.orders| && Fits(db.subs[i], db.orders[db.subs[i].order]))
  }

  /** What a credential is handed to it stays with. */
  predicate SoldStays(db: Db, db': Db) {
    forall i: Id | i < |db.stock| && db.stock[i].status.Sold? :: i < |db'.stock| && db'.stock[i] == db.stock[i]
  }

  /** From one instant to a later one: the moment of payment stays, a payload is written once and the order
      goes on, the last two unless remembered otherwise by then. */
  predicate GoesOn(db: Db, s': Shop, o: Id) {
    o < |db.orders| ==>
      && o < |s'.db.orders|
      && var before, after := db.orders[o], s'.db.orders[o];
         && (before.status.Delivered? ==> before.payload.Some?)
         && (before.payload.Some? ==> after.payload.Some?)
         && (before.payload.Some? && o !in s'.past.reopened ==> after.payload == before.payload)
         && (!Unpaid(before.status) ==> before.paidAt.Some? && after.paidAt == before.paidAt)
         && (o !in s'.past.reopened && o !in s'.past.spoiled ==> Later(before.status, after.status))
  }

  /** The renewal of a period: at most one order, which closed exactly that period and has exactly one
      successor, for the same buyer and plan, that starts when the closed one ends, or at the renewal if that
      is later; and the debit (one row, of exactly the price) exists if and only if the order does and was
      not free. */
  predicate RenewedOnce(db: Db, sub: Id, expiresAt: int) {
    var key := RenewalOrderOf(sub, expiresAt);
    && (forall i: Id, j: Id | i < |db.orders| && j < |db.orders| && db.orders[i].key == key && db.orders[j].key == key :: i == j)
    && (RenewalOf(sub, expiresAt) in db.ledger.records ==> FindByKey(db.orders, key).Some?)
    && (FindByKey(db.orders, key).Some? ==>
          var o := FindByKey(db.orders, key).value;
          var next := SubscriptionOf(db.subs, o);
          && next.Some? && sub < next.value
          && (forall i: Id | i < |db.subs| && db.subs[i].order == o :: i == next.value)
          && var ended, follows := db.subs[sub], db.subs[next.value];
          && ended.expiresAt == expiresAt && !ended.status.Active?
          && follows.user == ended.user && follows.plan == ended.plan
          && follows.startsAt == (if expiresAt > db.orders[o].createdAt then expiresAt else db.orders[o].createdAt)
          && follows.expiresAt >= follows.startsAt
          && (RenewalOf(sub, expiresAt) in db.ledger.records <==> db.orders[o].amountCents > 0)
          && (db.orders[o].amountCents > 0 ==>
                Debited(db.ledger.records[RenewalOf(sub, expiresAt)], db.orders[o].amountCents)))
  }

  lemma InvBuyers(s: Shop)
    requires Inv(s)
    ensures BuyersLedger(s.db)
  {
    hide GoodsInv, PromoInv, PeriodInv, LedgerBook.Sound, WorkInv;
  }

  lemma InvPromo(s: Shop, p: Id)
    requires Inv(s)
    ensures PromoHolds(s, p)
  {
    if p < |s.db.promos| { assert PromoOf(s.db.orders, s.db.promos[p], s.past, p); }
    hide MoneyInv, GoodsInv, PeriodInv, LedgerBook.Sound, WorkInv;
  }

  lemma InvOneEach(s: Shop)
    requires Inv(s)
    ensures OneEach(s.db)
  {
    hide MoneyInv, PromoInv, LedgerBook.Sound, WorkInv, RenewalDone;
  }

  lemma InvRenewed(s: Shop, sub: Id, expiresAt: int)
    requires Inv(s)
    ensures RenewedOnce(s.db, sub, expiresAt)
  {
    hide MoneyInv, PromoInv, GoodsInv, WorkInv, LedgerBook.Sound;
    var found := FindByKey(s.db.orders, RenewalOrderOf(sub, expiresAt));
    if found.Some? {
      assert RenewalDone(s.db, found.value);
    }
  }

  lemma GrowsOn(s: Shop, s': Shop, o: Id)
    requires Inv(s) && Grows(s.db, s'.db, s'.past)
    ensures GoesOn(s.db, s', o) && SoldStays(s.db, s'.db)
  {
    if o < |s.db.orders| {
      assert DealOf(s.db.orders[o], o in s.past.reopened);
      assert Follows(s.db.orders[o], s'.db.orders[o], o, s'.past);
    }
    hide Inv;
  }

  /** The buyer is handed a payload, and it is the one of before, if there was one. */
  predicate StillHas(db: Db, o: Id, before: Option<string>) {
    o < |db.orders| && db.orders[o].status.Delivered? && db.orders[o].payload.Some? && (before.Some? ==> db.orders[o].payload == before)
  }

  /** Two independent refund paths under two keys: at every instant of every run the REFUND rows of an
      order no late write found given back total exactly its price if it is FAILED or REFUNDED, and
      nothing in every other status; and all of them are on the buyer's balance. */
  lemma RefundedExactlyOnce(plans: seq<Plan>, run: seq<Shop>, events: seq<Event>, n: nat, o: Id)
    requires IsRun(plans, run, events) && n < |run| && o < |run[n].db.orders| && o !in run[n].past.spoiled
    ensures RefundHolds(run[n].db, o) && BuyersLedger(run[n].db)
  {
    RunKeeps(plans, run, events, n);
    InvBuyers(run[n]);
    assert MoneyOf(run[n].db.orders[o], run[n].db.ledger, o, o in run[n].past.railed);
  }

  /** Such an order, if paid only from the balance, has cost its buyer its price while it is PAID,
      DELIVERING or DELIVERED, and nothing in any other status, at every instant of every run. */
  lemma ChargedIffServed(plans: seq<Plan>, run: seq<Shop>, events: seq<Event>, n: nat, o: Id)
    requires IsRun(plans, run, events) && n < |run| && o < |run[n].db.orders|
    requires o !in run[n].past.railed && o !in run[n].past.spoiled
    ensures ChargeHolds(run[n].db, o)
  {
    RunKeeps(plans, run, events, n);
    assert MoneyOf(run[n].db.orders[o], run[n].db.ledger, o, false);
  }

  /** In every run `usedCount` is never above `maxUses` unless that was edited to below it, and it is the
      number of the promo's orders not EXPIRED or REFUNDED unless a late write brought a REFUNDED one back. */
  lemma PromoCountExact(plans: seq<Plan>, run: seq<Shop>, events: seq<Event>, n: nat, p: Id)
    requires IsRun(plans, run, events) && n < |run|
    ensures PromoHolds(run[n], p)
  {
    RunKeeps(plans, run, events, n);
    InvPromo(run[n], p);
  }

  /** In every run a credential is handed to one order and stays with it; an order consumes at most one,
      and has at most one period, however often its delivery is repeated. */
  lemma OneCredentialPerOrder(plans: seq<Plan>, run: seq<Shop>, events: seq<Event>, n: nat, m: nat)
    requires IsRun(plans, run, events) && n <= m < |run|
    ensures SoldStays(run[n].db, run[m].db) && OneEach(run[m].db)
  {
    RunKeeps(plans, run, events, n);
    RunKeeps(plans, run, events, m);
    RunGrows(plans, run, events, n, m);
    InvOneEach(run[m]);
    GrowsOn(run[n], run[m], 0);
  }

  /** In every run DELIVERED implies a payload; and the payload is written once and the order never goes
      back, whatever runs later, deliveries, operators and refunds alike, unless a late write lands on
      an order that has its payload or was given back. */
  lemma PayloadWrittenOnce(plans: seq<Plan>, run: seq<Shop>, events: seq<Event>, n: nat, m: nat, o: Id)
    requires IsRun(plans, run, events) && n <= m < |run|
    ensures GoesOn(run[n].db, run[m], o)
  {
    RunKeeps(plans, run, events, n);
    RunGrows(plans, run, events, n, m);
    GrowsOn(run[n], run[m], o);
  }

  /** Concurrent renewals from stale reads, in every run. */
  lemma RenewedAtMostOnce(plans: seq<Plan>, run: seq<Shop>, events: seq<Event>, n: nat, sub: Id, expiresAt: int)
    requires IsRun(plans, run, events) && n < |run|
    ensures RenewedOnce(run[n].db, sub, expiresAt)
  {
    RunKeeps(plans, run, events, n);
    InvRenewed(run[n], sub, expiresAt);
  }

  // ---------------------------------------------------------------- what a renewal costs, in every run

  /** What a renewal has read of subscription, plan and balance is what they were at one instant. */
  predicate ReadAt(db: Db, seen: Snapshot) {
    TakeSnapshot(db, seen.sub) == Ok(seen)
  }

  lemma SnapshotIsRead(db: Db, i: Id)
    ensures TakeSnapshot(db, i).Ok? ==> ReadAt(db, TakeSnapshot(db, i).value)
  {
  }

  lemma StepReads(s: Shop, e: Event, p: nat)
    requires p in Apply(s, e).work && Apply(s, e).work[p].Renewing?
    ensures (p in s.work && s.work[p] == Apply(s, e).work[p]) || ReadAt(s.db, Apply(s, e).work[p].seen)
  {
    hide Transacted, RailMoves, Touched, TakeSnapshot, WithinLimit;
    if e.ReadSubscription? { SnapshotIsRead(s.db, e.sub); }
    if UnderWay(e) && At(s, e.process) {
      ProceedGoesOn(s, e.process, e);
      hide Proceed;
    }
  }

  lemma {:induction false} ReadEarlier(plans: seq<Plan>, run: seq<Shop>, events: seq<Event>, n: nat, p: nat)
    requires IsRun(plans, run, events) && n < |run| && p in run[n].work && run[n].work[p].Renewing?
    ensures exists i: nat :: i < n && ReadAt(run[i].db, run[n].work[p].seen)
  {
    hide Apply, ReadAt;
    if n > 0 {
      assert run[n] == Apply(run[n - 1], events[n - 1]);
      StepReads(run[n - 1], events[n - 1], p);
      if !ReadAt(run[n - 1].db, run[n].work[p].seen) {
        ReadEarlier(plans, run, events, n - 1, p);
      }
    }
  }

  /** The renewal order `o` of `db'` is for the period as it was in `db`: for its buyer and plan, at the price
      of the plan, or nothing if that was not positive; and what it bought runs for the days of the plan. */
  ghost predicate PricedAt(db: Db, db': Db, o: Id)
    requires o < |db'.orders|
  {
    var order := db'.orders[o];
    && order.key.RenewalOrderOf? && order.key.sub < |db.subs|
    && var sub := db.subs[order.key.sub];
       && sub.status.Active? && sub.expiresAt == order.key.expiresAt && sub.plan < |db.plans|
       && var plan := db.plans[sub.plan];
          && plan.isActive && order.user == sub.user && order.plan == sub.plan && order.qty == 1
          && order.amountCents == (if plan.priceCents > 0 then plan.priceCents else 0)
          && BalanceOfBuyer(db, sub.user) >= plan.priceCents
          && exists i: Id :: RunsFor(db'.subs, i, o, DaysOf(plan))
  }

  function BalanceOfBuyer(db: Db, user: Id): int {
    LedgerBook.BalanceOf(db.ledger.rows, user)
  }

  function DaysOf(plan: Plan): nat {
    if plan.durationDays.Some? then plan.durationDays.value else 30
  }

  predicate RunsFor(subs: seq<Subscription>, i: Id, o: Id, days: nat) {
    i < |subs| && subs[i].order == o && subs[i].expiresAt - subs[i].startsAt == days * 86_400_000
  }

  /** A step adds no renewal order but that of a renewal's transaction, which is as its process has read. */
  lemma StepRenews(s: Shop, e: Event, o: Id)
    requires Inv(s) && |s.db.orders| <= o < |Apply(s, e).db.orders| && Apply(s, e).db.orders[o].key.RenewalOrderOf?
    ensures && e.Renew? && e.process in s.work && s.work[e.process].Renewing?
            && RenewTx(s.db, s.work[e.process].seen, e.now).Ok? && o == |s.db.orders|
            && Apply(s, e).db == RenewTx(s.db, s.work[e.process].seen, e.now).value
  {
    hide Inv, RailMoves, Touched, RenewTx, CreateSubscriptionTx, DeliverFromPoolTx, Wrote, Settled;
    if !UnderWay(e) {
      TransactedOrders(s.db, e);
      hide Transacted;
      if e.Rail? { RailOrders(s, e.after); }
    } else if At(s, e.process) {
      ProceedOrders(s, e.process, e);
      hide Proceed;
      RenewOrders(s, e);
    }
  }

  lemma RailOrders(s: Shop, after: Db)
    ensures |Apply(s, Rail(after)).db.orders| == |s.db.orders|
  {
    hide Touched;
  }

  lemma RenewOrders(s: Shop, e: Event)
    requires UnderWay(e) && At(s, e.process)
    ensures e.Renew? && s.work[e.process].Renewing? && RenewTx(s.db, s.work[e.process].seen, e.now).Ok? ==>
              |RenewTx(s.db, s.work[e.process].seen, e.now).value.orders| == |s.db.orders| + 1
  {
  }

  lemma TransactedOrders(db: Db, e: Event)
    ensures var db' := Transacted(db, e);
            |db'.orders| <= |db.orders| + 1
            && (|db'.orders| > |db.orders| ==> db'.orders[|db.orders|].key.ClientKey?)
  {
  }

  lemma ProceedOrders(s: Shop, p: nat, e: Event)
    requires At(s, p)
    ensures var s' := Proceed(s, p, s.work[p], e);
            |s'.db.orders| == |s.db.orders|
            || (s.work[p].Renewing? && e.Renew? && RenewTx(s.db, s.work[p].seen, e.now).Ok?
                && s'.db == RenewTx(s.db, s.work[p].seen, e.now).value)
  {
  }

  lemma NewlyPriced(plans: seq<Plan>, run: seq<Shop>, events: seq<Event>, n: nat, o: Id)
    requires IsRun(plans, run, events) && n < |events| && Inv(run[n]) && run[n + 1] == Apply(run[n], events[n])
    requires |run[n].db.orders| <= o < |run[n + 1].db.orders| && run[n + 1].db.orders[o].key.RenewalOrderOf?
    ensures exists i: nat :: i < n && PricedAt(run[i].db, run[n + 1].db, o)
  {
    hide Apply, Inv, PricedAt, RenewTx, ReadAt;
    StepRenews(run[n], events[n], o);
    var p := events[n].process;
    ReadEarlier(plans, run, events, n, p);
    hide IsRun;
    var i: nat :| i < n && ReadAt(run[i].db, run[n].work[p].seen);
    JustPriced(run[i].db, run[n].db, run[n].work[p].seen, events[n].now);
  }

  /** In every run a renewal has cost what the plan was priced at an earlier instant of the run, at which the
      period was ACTIVE, the plan on sale and the balance sufficient; its one debit is of exactly that. */
  lemma {:induction false} RenewedAtItsPrice(plans: seq<Plan>, run: seq<Shop>, events: seq<Event>, n: nat, o: Id)
    requires IsRun(plans, run, events) && n < |run| && o < |run[n].db.orders| && run[n].db.orders[o].key.RenewalOrderOf?
    ensures exists i: nat :: i < n && PricedAt(run[i].db, run[n].db, o)
  {
    if n > 0 {
      hide Apply, Inv, PricedAt, Grows;
      assert run[n] == Apply(run[n - 1], events[n - 1]);
      RunKeeps(plans, run, events, n - 1);
      StepKeeps(run[n - 1], events[n - 1]);
      if o < |run[n - 1].db.orders| {
        SameKeyOn(run[n - 1].db, run[n].db, run[n].past, o);
        RenewedAtItsPrice(plans, run, events, n - 1, o);
        var i: nat :| i < n - 1 && PricedAt(run[i].db, run[n - 1].db, o);
        StaysPriced(run[i].db, run[n - 1].db, run[n].db, run[n].past, o);
      } else {
        NewlyPriced(plans, run, events, n - 1, o);
      }
    }
  }

  lemma SameKeyOn(db: Db, db': Db, h: Past, o: Id)
    requires Grows(db, db', h) && o < |db.orders|
    ensures o < |db'.orders| && db'.orders[o].key == db.orders[o].key
  {
    assert Follows(db.orders[o], db'.orders[o], o, h);
  }

  lemma StaysPriced(read: Db, db: Db, db': Db, h: Past, o: Id)
    requires Grows(db, db', h) && o < |db.orders| && o < |db'.orders| && PricedAt(read, db, o)
    ensures PricedAt(read, db', o)
  {
    assert Follows(db.orders[o], db'.orders[o], o, h);
    hide LedgerBook.BalanceOf;
    var plan := read.plans[read.subs[db.orders[o].key.sub].plan];
    var days := DaysOf(plan);
    var i: Id :| RunsFor(db.subs, i, o, days);
    assert SubGrows(db.subs[i], db'.subs[i]);
    assert RunsFor(db'.subs, i, o, days);
  }

  lemma JustPriced(read: Db, db: Db, seen: Snapshot, now: int)
    requires ReadAt(read, seen) && RenewTx(db, seen, now).Ok?
    ensures |db.orders| < |RenewTx(db, seen, now).value.orders| && PricedAt(read, RenewTx(db, seen, now).value, |db.orders|)
  {
    hide LedgerBook.BalanceOf, LedgerBook.Booked, FindByKey;
    var db', o := RenewTx(db, seen, now).value, |db.orders|;
    var plan := read.plans[read.subs[seen.sub].plan];
    assert db'.orders[o] == RenewalOrder(seen, now) && db'.subs[|db.subs|] == Successor(seen, o, now);
    assert seen.row == read.subs[seen.sub] && DaysOf(plan) == seen.durationDays && seen.priceCents == plan.priceCents;
    assert RunsFor(db'.subs, |db.subs|, o, DaysOf(plan));
    assert BalanceOfBuyer(read, seen.row.user) >= plan.priceCents;
  }

  // ---------------------------------------------------------------- a period for whoever is served, in every run

  lemma HasPeriodStays(db: Db, db': Db, h: Past, o: Id)
    requires Grows(db, db', h) && HasOnePeriod(db, o) && OneEach(db')
    ensures HasOnePeriod(db', o)
  {
    var i: Id :| IsOnlyPeriod(db, o, i);
    assert Follows(db.orders[o], db'.orders[o], o, h) && SubGrows(db.subs[i], db'.subs[i]);
    assert IsOnlyPeriod(db', o, i);
  }

  lemma BookkeepingStep(s: Shop, p: nat, o: Id, now: int)
    requires Inv(s) && p in s.work && s.work[p] == Subscribing(o) && o < |s.db.orders| && s.db.orders[o].plan < |s.db.plans|
    requires s.db.plans[s.db.orders[o].plan].durationDays.Some?
    ensures HasOnePeriod(Apply(s, Event.Subscribe(p, now)).db, o)
  {
    hide Inv, CreateSubscriptionTx, IsPeriodOf, OneEach, HasOnePeriod;
    InvOneEach(s);
    PeriodsAreFit(s.db, o);
    PeriodCreated(s.db, o, now);
    OnePeriodThen(s.db, CreateSubscriptionTx(s.db, o, now).value, o, now);
  }

  lemma PeriodsAreFit(db: Db, o: Id)
    requires OneEach(db) && o < |db.orders|
    ensures PeriodsFit(db, o)
  {
    forall r | r in db.subs && r.order == o ensures r.user == db.orders[o].user && r.plan == db.orders[o].plan {
      var i: Id :| i < |db.subs| && db.subs[i] == r;
      assert Fits(db.subs[i], db.orders[o]);
    }
  }

  /** In every run, once the bookkeeping of a delivered order of a subscription plan has been done, the order
      has exactly one period, its buyer's and its plan's, whatever runs later. */
  lemma BookkeepingLasts(plans: seq<Plan>, run: seq<Shop>, events: seq<Event>, n: nat, m: nat, o: Id)
    requires IsRun(plans, run, events) && n < m < |run| && events[n].Subscribe? && events[n].process in run[n].work
    requires run[n].work[events[n].process] == Subscribing(o) && o < |run[n].db.orders|
    requires run[n].db.orders[o].plan < |run[n].db.plans| && run[n].db.plans[run[n].db.orders[o].plan].durationDays.Some?
    ensures HasOnePeriod(run[m].db, o)
  {
    hide Apply, Inv, Grows, OneEach, HasOnePeriod;
    assert run[n + 1] == Apply(run[n], events[n]);
    RunKeeps(plans, run, events, n);
    RunKeeps(plans, run, events, m);
    RunGrows(plans, run, events, n + 1, m);
    hide IsRun;
    BookkeepingStep(run[n], events[n].process, o, events[n].now);
    InvOneEach(run[m]);
    HasPeriodStays(run[n + 1].db, run[m].db, run[m].past, o);
  }

  // ---------------------------------------------------------------- one uninterrupted fulfilment

  lemma StrategyDelivers(db: Db, o: Id, b: BreakerState, world: World, now: int)
    requires o < |db.orders| && db.orders[o].plan < |db.plans| && db.orders[o].status.Delivering? && FailAndRefundTx(db, o).Ok?
    ensures var end := StrategyTx(db, o, b, world, now);
            match end.error
            case None => |end.db.orders| == |db.orders| && end.db.ledger == db.ledger
                         && end.db.orders[o].status.Delivered? && end.db.orders[o].payload.Some?
            case Some(ManualFallbackRequired) => end.db == db && db.plans[db.orders[o].plan].delivery.ManualFallback?
            case Some(e) => !e.OrderState? && !e.NotFound? && (end.db == db || end.db == FailAndRefundTx(db, o).value)
  {
    hide FailAndRefundTx, FirstSuccess, OwnedItem, FirstAvailable;
  }

  /** An uninterrupted `fulfillOrder` of a paid order ends with the goods in the buyer's hands, with
      an operator, or with the order FAILED and its whole price returned: never charged for nothing. */
  lemma FulfillEnds(db: Db, h: Past, o: Id, b: BreakerState, world: World, now: int)
    requires DbInv(db, h) && o < |db.orders| && o !in h.spoiled && db.orders[o].plan < |db.plans|
    requires db.orders[o].status.Paid? || db.orders[o].status.Delivering?
    ensures var f := FulfillTx(db, o, b, world, now);
            && o < |f.db.orders|
            && var order := f.db.orders[o];
            match f.outcome
            case Served => order.status.Delivered? && order.payload.Some? && f.db.ledger == db.ledger
            case Parked => f.db == WithStatus(db, o, Delivering) && db.plans[order.plan].delivery.ManualFallback?
            case Threw(_) => order.status.Failed? && RefundTotal(f.db.ledger.rows, o) == order.amountCents
  {
    var marked := WithStatus(db, o, Delivering);
    assert MoneyOf(db.orders[o], db.ledger, o, o in h.railed);
    FailurePays(marked, o);
    StrategyDelivers(marked, o, b, world, now);
    hide StrategyTx, FailAndRefundTx, DbInv;
    var end := StrategyTx(marked, o, b, world, now);
    if end.error.Some? && !end.error.value.ManualFallbackRequired? {
      assert Settled(end.db, o) == FailAndRefundTx(marked, o).value;
    }
  }

  lemma PeriodThere(db: Db, after: Db, o: Id, now: int)
    requires PeriodGiven(db, after, o, now)
    ensures after.plans[after.orders[o].plan].durationDays.None? || exists s :: s in after.subs && s.order == o
  {
    if |after.subs| > |db.subs| { assert after.subs[|db.subs|] in after.subs; }
  }

  lemma DeliveredStays(db: Db, o: Id, b: BreakerState, world: World, now: int)
    requires o < |db.orders| && db.orders[o].plan < |db.plans| && db.orders[o].status.Delivered? && db.orders[o].payload.Some?
    requires db.plans[db.orders[o].plan].durationDays.None? || exists s :: s in db.subs && s.order == o
    ensures FulfillTx(db, o, b, world, now) == Fulfilled(db, Served)
  {
    PeriodCreated(db, o, now);
    hide StrategyTx, CreateSubscriptionTx, IsPeriodOf;
  }

  /** Running it again on what it delivered changes nothing at all. */
  lemma FulfillAgain(db: Db, o: Id, b: BreakerState, world: World, now: int, b': BreakerState, world': World, now': int)
    requires o < |db.orders| && db.orders[o].plan < |db.plans| && !db.orders[o].status.Delivered?
    requires FulfillTx(db, o, b, world, now).outcome.Served?
    ensures var served := FulfillTx(db, o, b, world, now).db;
            FulfillTx(served, o, b', world', now') == Fulfilled(served, Served)
  {
    hide FulfillTx, CreateSubscriptionTx, CanServe, HandedOver, PeriodGiven, PeriodsFit, HasOnePeriod;
    var served := FulfillTx(db, o, b, world, now).db;
    if db.orders[o].status.Paid? || db.orders[o].status.Delivering? {
      ServesIff(db, o, b, world, now);
    } else {
      ServesNoOther(db, o, b, world, now);
    }
    ServedHasPeriod(db, o, b, world, now);
    PeriodThere(db, served, o, now);
    DeliveredStays(served, o, b', world', now');
  }

  // ---------------------------------------------------------------- what a late write breaks

  /** A late write of either kind, on a priced order whose books are exact: it keeps the refund promise, and
      the charge of an order paid only from the balance, if and only if it does not find the order FAILED
      or REFUNDED. */
  lemma LateWriteMoneyIff(s: Shop, e: Event, o: Id)
    requires Inv(s) && Lands(s, e, o) && o !in s.past.spoiled && s.db.orders[o].amountCents > 0
    ensures RefundHolds(Apply(s, e).db, o) <==> !GivenBack(StatusOf(s, o))
    ensures o !in s.past.railed ==> (ChargeHolds(Apply(s, e).db, o) <==> !GivenBack(StatusOf(s, o)))
  {
    assert WorkOk(s, s.work[e.process]);
    assert MoneyOf(s.db.orders[o], s.db.ledger, o, o in s.past.railed);
    LandsStep(s, e, o);
    hide Apply, Inv, RefundTotal, NetTotal;
  }

  /** It keeps the count of the order's promo if and only if it does not find the order REFUNDED; then the
      promo counts one order too few. */
  lemma LateWritePromoIff(s: Shop, e: Event, o: Id)
    requires Inv(s) && Lands(s, e, o) && s.db.orders[o].promo.Some?
    requires NoneRegained(s.db.orders, s.past, s.db.orders[o].promo.value)
    ensures var p, db' := s.db.orders[o].promo.value, Apply(s, e).db;
            && (CountHolds(db', p) <==> !StatusOf(s, o).Refunded?)
            && (StatusOf(s, o).Refunded? ==> p < |db'.promos| && db'.promos[p].usedCount == Holders(db'.orders, p) - 1)
  {
    assert WorkOk(s, s.work[e.process]);
    var p := s.db.orders[o].promo.value;
    assert PromoOf(s.db.orders, s.db.promos[p], s.past, p);
    LandsStep(s, e, o);
    SumUpdate(s.db.orders, o, Landed(s, e, o), HolderShare(p));
    hide Apply, Inv;
  }

  /** It keeps the order on its way, from PAID over DELIVERING to DELIVERED, if and only if it finds it PAID
      or DELIVERING, or is the update to DELIVERED and finds it DELIVERED already. */
  lemma LateWriteOrderIff(s: Shop, e: Event, o: Id)
    requires Inv(s) && Lands(s, e, o)
    ensures Later(StatusOf(s, o), Landed(s, e, o).status)
            <==> StatusOf(s, o).Paid? || StatusOf(s, o).Delivering? || (e.WriteDelivered? && StatusOf(s, o).Delivered?)
  {
    assert WorkOk(s, s.work[e.process]);
  }

  /** `markDelivering` landing late, and the delivery that goes on from there with whatever it is given:
      nothing the buyer was handed is replaced, whatever that is, if and only if the order was neither
      DELIVERED nor REFUNDED after its delivery. */
  lemma LateDeliveringPayloadIff(s: Shop, p: nat, o: Id)
    requires Inv(s) && Lands(s, WriteDelivering(p), o) && o !in s.past.reopened
    ensures (forall anew: string ::
               StillHas(Apply(Apply(Apply(s, WriteDelivering(p)), ReadDelivering(p, anew)), WriteDelivered(p)).db,
                        o, s.db.orders[o].payload))
            <==> !StatusOf(s, o).Delivered? && !(StatusOf(s, o).Refunded? && s.db.orders[o].payload.Some?)
  {
    var late, before := Apply(s, WriteDelivering(p)), s.db.orders[o].payload;
    assert DealOf(s.db.orders[o], false);
    WriteStep(s, p, o);
    hide Apply, Inv, DealOf;
    forall anew: string
      ensures StillHas(Apply(Apply(late, ReadDelivering(p, anew)), WriteDelivered(p)).db, o, before)
              <==> before.Some? ==> before == Some(anew)
    {
      PayloadSteps(late, p, o, anew);
    }
    if before.Some? {
      var other := before.value + "x";
      assert |other| > |before.value|;
      assert !StillHas(Apply(Apply(late, ReadDelivering(p, other)), WriteDelivered(p)).db, o, before);
    }
  }

  /** `markDelivered` landing late with something else than is stored, if anything is: what the buyer was
      handed stays if and only if the order was neither DELIVERED nor REFUNDED after its delivery. */
  lemma LateDeliveredPayloadIff(s: Shop, p: nat, o: Id)
    requires Inv(s) && Lands(s, WriteDelivered(p), o) && o !in s.past.reopened
    requires s.db.orders[o].payload != Some(s.work[p].payload)
    ensures StillHas(Apply(s, WriteDelivered(p)).db, o, s.db.orders[o].payload)
            <==> !StatusOf(s, o).Delivered? && !(StatusOf(s, o).Refunded? && s.db.orders[o].payload.Some?)
  {
    assert WorkOk(s, s.work[p]) && DealOf(s.db.orders[o], false);
    LandsStep(s, WriteDelivered(p), o);
    hide Apply, Inv;
  }

  /** Failing a DELIVERING order whose failure refund is not booked yet always succeeds and pays
      exactly its price. */
  lemma FailurePays(db: Db, o: Id)
    requires o < |db.orders| && db.orders[o].status.Delivering? && LedgerBook.Sound(db.ledger)
    requires db.orders[o].amountCents > 0 ==> FailureRefundOf(o) !in db.ledger.records
    ensures var tx := FailAndRefundTx(db, o);
            && tx.Ok? && tx.value.orders == db.orders[o := db.orders[o].(status := OrderStatus.Failed)]
            && RefundTotal(tx.value.ledger.rows, o) == RefundTotal(db.ledger.rows, o) + db.orders[o].amountCents
  {
    var order := db.orders[o];
    var r := Row(order.user, LedgerType.Refund, order.amountCents, Some(o), None);
    assert db.ledger.rows[..|db.ledger.rows|] == db.ledger.rows;
    SumAppend(db.ledger.rows, r, RefundShare(o));
  }

  lemma RefundPays(db: Db, h: Past, o: Id)
    requires DbInv(db, h) && o < |db.orders| && o !in h.spoiled && db.orders[o].amountCents > 0
    requires db.orders[o].status.Paid? || db.orders[o].status.Delivering?
    ensures var tx := RefundOrderTx(db, o);
            && tx.Ok? && RefundTotal(tx.value.ledger.rows, o) == db.orders[o].amountCents
            && FailureRefundOf(o) !in tx.value.ledger.records
            && tx.value.stock == ReleaseReserved(db.stock, o)
            && tx.value.promos == ReleasePromo(db.promos, db.orders[o].promo)
            && NetTotal(tx.value.ledger.rows, db.orders[o].user, o) == NetTotal(db.ledger.rows, db.orders[o].user, o) + db.orders[o].amountCents
            && tx.value.orders == db.orders[o := db.orders[o].(status := Refunded)]
  {
    var order := db.orders[o];
    assert MoneyOf(order, db.ledger, o, o in h.railed);
    var r := Row(order.user, LedgerType.Refund, order.amountCents, Some(o), None);
    assert db.ledger.rows[..|db.ledger.rows|] == db.ledger.rows;
    SumAppend(db.ledger.rows, r, RefundShare(o));
    SumAppend(db.ledger.rows, r, NetShare(order.user, o));
  }

  lemma EmptyPool(db: Db, o: Id)
    requires o < |db.orders|
    requires OwnedItem(db.stock, o).None? && FirstAvailable(db.stock, db.orders[o].plan, {}).None?
    ensures DeliverFromPoolTx(db, o) == Err(StockUnavailable)
  {
  }

  lemma EmptyPoolStep(s: Shop, p: nat, o: Id)
    requires p in s.work && s.work[p] == Dispatching(o) && o < |s.db.orders|
    requires DeliverFromPoolTx(s.db, o) == Err(StockUnavailable)
    ensures Apply(s, FromPool(p)) == Goes(s, p, Settling(o))
  {
  }

  lemma SettleStep(s: Shop, p: nat, o: Id)
    requires p in s.work && s.work[p] == Settling(o) && o < |s.db.orders|
    ensures Apply(s, Settle(p)).db == Settled(s.db, o)
  {
  }

  /** A late `markDelivering`, an empty pool and the settlement, in a row: one failure refund. */
  lemma LateFailure(s: Shop, p: nat, o: Id)
    requires p in s.work && s.work[p] == WritingDelivering(o) && o < |s.db.orders| && LedgerBook.Sound(s.db.ledger)
    requires s.db.orders[o].amountCents > 0 ==> FailureRefundOf(o) !in s.db.ledger.records
    requires OwnedItem(s.db.stock, o).None? && FirstAvailable(s.db.stock, s.db.orders[o].plan, {}).None?
    ensures var end := Apply(Apply(Apply(s, WriteDelivering(p)), FromPool(p)), Settle(p));
            RefundTotal(end.db.ledger.rows, o) == RefundTotal(s.db.ledger.rows, o) + s.db.orders[o].amountCents
  {
    var late := Goes(Wrote(s, o, s.db.orders[o].(status := Delivering)), p, Dispatching(o));
    var db' := late.db;
    WriteStep(s, p, o);
    EmptyPool(db', o);
    EmptyPoolStep(late, p, o);
    SettleStep(Goes(late, p, Settling(o)), p, o);
    FailurePays(db', o);
    hide Apply, FailAndRefundTx, DeliverFromPoolTx, LedgerBook.Sound;
  }

  lemma NothingReserved(stock: seq<StockItem>, o: Id)
    requires OwnedItem(stock, o).None?
    ensures ReleaseReserved(stock, o) == stock
  {
  }

  /** `markDelivering` has read a PAID order and its update is outstanding. */
  lemma ReadOutstanding(s: Shop, p: nat, o: Id)
    requires o < |s.db.orders| && StatusOf(s, o).Paid?
    ensures Apply(Apply(s, Open(p, o)), ReadPaid(p)) == Goes(s, p, WritingDelivering(o))
  {
    assert Apply(s, Open(p, o)) == Goes(s, p, Opened(o));
    assert s.work[p := Opened(o)][p := WritingDelivering(o)] == s.work[p := WritingDelivering(o)];
  }

  lemma RefundStep(s: Shop, o: Id)
    requires RefundOrderTx(s.db, o).Ok?
    ensures Apply(s, RefundIt(o)) == s.(db := RefundOrderTx(s.db, o).value)
  {
    hide RefundOrderTx;
  }

  /** How the promise breaks, from every state with a priced PAID order whose pool is empty: the
      refund lands between the read and the write of `markDelivering`, and the failed delivery then
      refunds a second time under its own key. */
  lemma RaceRefundsTwice(s: Shop, p: nat, o: Id)
    requires Inv(s) && o < |s.db.orders| && o !in s.past.spoiled && StatusOf(s, o).Paid? && s.db.orders[o].amountCents > 0
    requires OwnedItem(s.db.stock, o).None? && FirstAvailable(s.db.stock, s.db.orders[o].plan, {}).None?
    ensures var refunded := Apply(Apply(Apply(s, Open(p, o)), ReadPaid(p)), RefundIt(o));
            var end := Apply(Apply(Apply(refunded, WriteDelivering(p)), FromPool(p)), Settle(p));
            && RefundTotal(refunded.db.ledger.rows, o) == s.db.orders[o].amountCents
            && RefundTotal(end.db.ledger.rows, o) == 2 * s.db.orders[o].amountCents
  {
    hide Apply;
    ReadOutstanding(s, p, o);
    RefundPays(s.db, s.past, o);
    RefundKeeps(s.db, s.past, o);
    NothingReserved(s.db.stock, o);
    var refunded := Goes(s, p, WritingDelivering(o)).(db := RefundOrderTx(s.db, o).value);
    RefundStep(Goes(s, p, WritingDelivering(o)), o);
    SoundOf(refunded.db, s.past);
    hide RefundOrderTx, DbInv, Grows, LedgerBook.Sound, WorkInv;
    LateFailure(refunded, p, o);
  }

  lemma RefundsInFlight(s: Shop, o: Id)
    requires Inv(s) && o < |s.db.orders| && o !in s.past.spoiled && StatusOf(s, o).Delivering? && s.db.orders[o].amountCents > 0
    ensures var refunded := Apply(s, RefundIt(o));
            && Inv(refunded) && refunded.work == s.work && refunded.past == s.past
            && refunded.db.orders == s.db.orders[o := s.db.orders[o].(status := Refunded)]
            && RefundTotal(refunded.db.ledger.rows, o) == s.db.orders[o].amountCents
            && (o !in s.past.railed ==> NetTotal(refunded.db.ledger.rows, s.db.orders[o].user, o) == 0)
  {
    assert MoneyOf(s.db.orders[o], s.db.ledger, o, o in s.past.railed);
    RefundPays(s.db, s.past, o);
    RefundStep(s, o);
    StepKeeps(s, RefundIt(o));
    hide Inv, Apply, RefundOrderTx, RefundTotal, NetTotal;
  }

  /** The refund lands between the read and the write of `markDelivered`. */
  lemma ServesRefunded(s: Shop, p: nat, o: Id, payload: string)
    requires Inv(s) && o < |s.db.orders| && o !in s.past.spoiled && StatusOf(s, o).Delivering? && s.db.orders[o].amountCents > 0
    requires p in s.work && s.work[p] == WritingDelivered(o, payload)
    ensures var end := Apply(Apply(s, RefundIt(o)), WriteDelivered(p)).db;
            && end.orders == s.db.orders[o := s.db.orders[o].(status := Delivered, payload := Some(payload))]
            && RefundTotal(end.ledger.rows, o) == s.db.orders[o].amountCents
            && (o !in s.past.railed ==> NetTotal(end.ledger.rows, s.db.orders[o].user, o) == 0)
            && (s.db.orders[o].promo.Some? && NoneRegained(s.db.orders, s.past, s.db.orders[o].promo.value) ==>
                  var q := s.db.orders[o].promo.value;
                  q < |end.promos| && end.promos[q].usedCount == Holders(end.orders, q) - 1)
  {
    var refunded := Apply(s, RefundIt(o));
    RefundsInFlight(s, o);
    hide Inv, Apply, Holders, RefundTotal, NetTotal;
    LandsStep(refunded, WriteDelivered(p), o);
    if s.db.orders[o].promo.Some? && NoneRegained(s.db.orders, s.past, s.db.orders[o].promo.value) {
      assert NoneRegained(refunded.db.orders, refunded.past, s.db.orders[o].promo.value);
      LateWritePromoIff(refunded, WriteDelivered(p), o);
    }
  }

  lemma ReadStep(s: Shop, p: nat, o: Id, payload: string)
    requires p in s.work && s.work[p] == Dispatching(o) && o < |s.db.orders| && s.db.orders[o].status.Delivering?
    ensures Apply(s, ReadDelivering(p, payload)) == Goes(s, p, WritingDelivered(o, payload))
  {
  }

  /** How charge and promo count break, from every state with a priced PAID order: the refund lands between
      the read and the write of `markDelivered`. The buyer has the goods and the whole price back, and
      the promo counts one order too few. */
  lemma RaceServesRefunded(s: Shop, p: nat, o: Id, payload: string)
    requires Inv(s) && o < |s.db.orders| && o !in s.past.spoiled && StatusOf(s, o).Paid? && s.db.orders[o].amountCents > 0
    ensures var reading := Apply(Started(s, p, o), ReadDelivering(p, payload));
            var end := Apply(Apply(reading, RefundIt(o)), WriteDelivered(p)).db;
            && o < |end.orders| && end.orders[o].status.Delivered? && end.orders[o].payload == Some(payload)
            && RefundTotal(end.ledger.rows, o) == s.db.orders[o].amountCents
            && (o !in s.past.railed ==> NetTotal(end.ledger.rows, s.db.orders[o].user, o) == 0)
            && (s.db.orders[o].promo.Some? && NoneRegained(s.db.orders, s.past, s.db.orders[o].promo.value) ==>
                  var q := s.db.orders[o].promo.value;
                  q < |end.promos| && end.promos[q].usedCount == Holders(end.orders, q) - 1)
  {
    StartMarks(s, p, o);
    StartKeeps(s, p, o);
    var started := Started(s, p, o);
    ReadStep(started, p, o, payload);
    StepKeeps(started, ReadDelivering(p, payload));
    var reading := Apply(started, ReadDelivering(p, payload));
    assert StatusOf(reading, o).Delivering? && o !in reading.past.spoiled && reading.past.regained == s.past.regained;
    hide Inv, Apply, Started;
    ServesRefunded(reading, p, o, payload);
    if s.db.orders[o].promo.Some? && NoneRegained(s.db.orders, s.past, s.db.orders[o].promo.value) {
      assert NoneRegained(reading.db.orders, reading.past, s.db.orders[o].promo.value);
    }
  }

  lemma StartKeeps(s: Shop, p: nat, o: Id)
    requires Inv(s)
    ensures Inv(Started(s, p, o))
  {
    hide Inv, Apply;
    StepKeeps(s, Open(p, o));
    StepKeeps(Apply(s, Open(p, o)), ReadPaid(p));
    StepKeeps(Apply(Apply(s, Open(p, o)), ReadPaid(p)), WriteDelivering(p));
  }

  /** How write-once breaks, from every state with a PAID order: two deliveries of it, one of which reads
      before the other delivers and writes after. The buyer is handed a second payload. */
  lemma RaceOverwrites(s: Shop, p: nat, q: nat, o: Id, first: string, second: string)
    requires o < |s.db.orders| && StatusOf(s, o).Paid? && p != q
    ensures var outstanding := Apply(Apply(s, Open(p, o)), ReadPaid(p));
            var handed := Apply(Apply(Started(outstanding, q, o), ReadDelivering(q, first)), WriteDelivered(q));
            var end := Apply(Apply(Apply(handed, WriteDelivering(p)), ReadDelivering(p, second)), WriteDelivered(p));
            && o < |handed.db.orders| && handed.db.orders[o].status.Delivered? && handed.db.orders[o].payload == Some(first)
            && o < |end.db.orders| && end.db.orders[o].status.Delivered? && end.db.orders[o].payload == Some(second)
  {
    ReadOutstanding(s, p, o);
    var outstanding := Goes(s, p, WritingDelivering(o));
    StartMarks(outstanding, q, o);
    PayloadSteps(Started(outstanding, q, o), q, o, first);
    var handed := Apply(Apply(Started(outstanding, q, o), ReadDelivering(q, first)), WriteDelivered(q));
    hide Apply, Started;
    assert handed.work[p] == WritingDelivering(o);
    WriteStep(handed, p, o);
    PayloadSteps(Apply(handed, WriteDelivering(p)), p, o, second);
  }

  lemma SoundOf(db: Db, h: Past)
    requires DbInv(db, h)
    ensures LedgerBook.Sound(db.ledger)
  {
  }

  // ---------------------------------------------------------------- paying twice

  /** `markPaid` hands back an order that is paid already, so the payment transaction trusts its caller
      to have found the order PENDING. Called on an order in flight it charges the buyer if and only if
      the balance has not paid for it yet: never twice from the balance, but once more after another
      rail. */
  lemma BalancePaysAgainIff(db: Db, h: Past, o: Id, now: int)
    requires DbInv(db, h) && o < |db.orders| && Held(db.orders[o].status) && db.orders[o].amountCents > 0
    requires LedgerBook.BalanceOf(db.ledger.rows, db.orders[o].user) >= db.orders[o].amountCents
    requires PurchaseOf(o) in db.ledger.records ==> db.ledger.records[PurchaseOf(o)].LedgerRecord?
    ensures var tx := PayFromBalanceTx(db, o, now);
            && tx.Ok? && tx.value.orders == db.orders
            && NetTotal(tx.value.ledger.rows, db.orders[o].user, o)
               == NetTotal(db.ledger.rows, db.orders[o].user, o) - (if PurchaseOf(o) in db.ledger.records then 0 else db.orders[o].amountCents)
            && (o !in h.railed && o !in h.spoiled ==> PurchaseOf(o) in db.ledger.records)
  {
    assert o !in h.spoiled ==> MoneyOf(db.orders[o], db.ledger, o, o in h.railed);
    hide DbInv;
    var order := db.orders[o];
    SumAppend(db.ledger.rows, Row(order.user, LedgerType.Purchase, 0 - order.amountCents, Some(o), None), NetShare(order.user, o));
  }

  // ---------------------------------------------------------------- an uninterrupted fulfilment is a run

  /** The first three steps of a process that finds its order PAID. */
  ghost function Started(s: Shop, p: nat, o: Id): Shop {
    Apply(Apply(Apply(s, Open(p, o)), ReadPaid(p)), WriteDelivering(p))
  }

  lemma StartMarks(s: Shop, p: nat, o: Id)
    requires o < |s.db.orders| && StatusOf(s, o).Paid?
    ensures Started(s, p, o) == Goes(Wrote(s, o, s.db.orders[o].(status := Delivering)), p, Dispatching(o))
  {
    ReadOutstanding(s, p, o);
    WriteStep(Goes(s, p, WritingDelivering(o)), p, o);
    assert s.work[p := WritingDelivering(o)][p := Dispatching(o)] == s.work[p := Dispatching(o)];
    hide Apply;
  }

  lemma WriteStep(s: Shop, p: nat, o: Id)
    requires p in s.work && s.work[p] == WritingDelivering(o) && o < |s.db.orders|
    ensures Apply(s, WriteDelivering(p)) == Goes(Wrote(s, o, s.db.orders[o].(status := Delivering)), p, Dispatching(o))
  {
  }

  lemma SubscribeStep(s: Shop, p: nat, o: Id, now: int)
    requires p in s.work && s.work[p] == Subscribing(o) && o < |s.db.orders|
    ensures Apply(s, Subscribe(p, now)).db == Subscribed(s.db, o, now)
  {
  }

  lemma PoolStep(s: Shop, p: nat, o: Id)
    requires p in s.work && s.work[p] == Dispatching(o) && o < |s.db.orders| && s.db.orders[o].status.Delivering?
    ensures var tx := DeliverFromPoolTx(s.db, o);
            Apply(s, FromPool(p)) == if tx.Ok? then Goes(s.(db := tx.value), p, Subscribing(o)) else Goes(s, p, Settling(o))
    ensures DeliverFromPoolTx(s.db, o).Ok? ==> |DeliverFromPoolTx(s.db, o).value.orders| == |s.db.orders|
  {
    hide OwnedItem, FirstAvailable;
  }

  /** The machine's steps, left alone, are `fulfillOrder`: a pool-backed plan is served from the pool, or
      settled when that is empty. */
  lemma PoolFulfilmentIsARun(s: Shop, p: nat, o: Id, b: BreakerState, world: World, now: int)
    requires o < |s.db.orders| && StatusOf(s, o).Paid? && s.db.orders[o].plan < |s.db.plans|
    requires s.db.plans[s.db.orders[o].plan].delivery.StockPool?
    ensures var taken := Apply(Started(s, p, o), FromPool(p));
            && p in taken.work && taken.work[p] in {Subscribing(o), Settling(o)}
            && FulfillTx(s.db, o, b, world, now).db
               == Apply(taken, if taken.work[p].Subscribing? then Subscribe(p, now) else Settle(p)).db
  {
    StartMarks(s, p, o);
    var marked := Goes(Wrote(s, o, s.db.orders[o].(status := Delivering)), p, Dispatching(o));
    assert marked.db == WithStatus(s.db, o, Delivering);
    PoolStep(marked, p, o);
    var taken := Apply(marked, FromPool(p));
    hide Apply, DeliverFromPoolTx, Started;
    if taken.work[p].Subscribing? {
      SubscribeStep(taken, p, o, now);
    } else {
      SettleStep(taken, p, o);
    }
  }

  lemma PayloadSteps(s: Shop, p: nat, o: Id, payload: string)
    requires p in s.work && s.work[p] == Dispatching(o) && o < |s.db.orders| && s.db.orders[o].status.Delivering?
    ensures Apply(Apply(s, ReadDelivering(p, payload)), WriteDelivered(p))
         == Goes(Wrote(s, o, s.db.orders[o].(status := Delivered, payload := Some(payload))), p, Subscribing(o))
  {
    assert Apply(s, ReadDelivering(p, payload)) == Goes(s, p, WritingDelivered(o, payload));
    assert s.work[p := WritingDelivered(o, payload)][p := Subscribing(o)] == s.work[p := Subscribing(o)];
  }

  lemma GiveUpStep(s: Shop, p: nat, o: Id)
    requires p in s.work && s.work[p] == Dispatching(o) && o < |s.db.orders|
    ensures Apply(s, GiveUp(p)) == Goes(s, p, Settling(o))
  {
  }

  /** The supplier's first answer, if one is asked and answers. */
  function Answer(b: BreakerState, world: World, now: int): Reply {
    if world.supplier.None? || BreakerOpen(b, now) then None else FirstSuccess(world.supplier.value)
  }

  /** What `fulfillOrder` does for a supplier's product: an exhausted supplier's own refund and the settlement
      after it are one refund. */
  lemma SuppliedOutcome(db: Db, o: Id, b: BreakerState, world: World, now: int)
    requires o < |db.orders| && db.orders[o].status.Paid? && db.orders[o].plan < |db.plans|
    requires db.plans[db.orders[o].plan].delivery.ExternalApi?
    ensures var answer, marked := Answer(b, world, now), WithStatus(db, o, Delivering);
            FulfillTx(db, o, b, world, now).db
            == if answer.Some? then Subscribed(WithPayload(marked, o, answer.value), o, now) else Settled(marked, o)
  {
    var marked := WithStatus(db, o, Delivering);
    assert FailAndRefundTx(marked, o).Ok? ==> FailAndRefundTx(marked, o).value.orders[o].status.Failed?;
    assert FailAndRefundTx(marked, o).Err? ==> !FailAndRefundTx(marked, o).error.OrderState? && !FailAndRefundTx(marked, o).error.NotFound?;
    hide FailAndRefundTx, FirstSuccess, Subscribed;
  }

  /** A supplier's product: its first answer is written and the period made, or the failure is settled. */
  lemma SuppliedFulfilmentIsARun(s: Shop, p: nat, o: Id, b: BreakerState, world: World, now: int)
    requires o < |s.db.orders| && StatusOf(s, o).Paid? && s.db.orders[o].plan < |s.db.plans|
    requires s.db.plans[s.db.orders[o].plan].delivery.ExternalApi?
    ensures var answer, started := Answer(b, world, now), Started(s, p, o);
            FulfillTx(s.db, o, b, world, now).db
            == if answer.Some?
               then Apply(Apply(Apply(started, ReadDelivering(p, answer.value)), WriteDelivered(p)), Subscribe(p, now)).db
               else Apply(Apply(started, GiveUp(p)), Settle(p)).db
  {
    var answer := Answer(b, world, now);
    SuppliedOutcome(s.db, o, b, world, now);
    StartMarks(s, p, o);
    var marked := Goes(Wrote(s, o, s.db.orders[o].(status := Delivering)), p, Dispatching(o));
    assert marked.db == WithStatus(s.db, o, Delivering);
    hide Started, Apply, FulfillTx, Answer, Subscribed, Settled;
    if answer.Some? {
      PayloadSteps(marked, p, o, answer.value);
      var done := Wrote(marked, o, marked.db.orders[o].(status := Delivered, payload := answer));
      assert done.db == WithPayload(marked.db, o, answer.value);
      SubscribeStep(Goes(done, p, Subscribing(o)), p, o, now);
    } else {
      GiveUpStep(marked, p, o);
      SettleStep(Goes(marked, p, Settling(o)), p, o);
    }
  }
}
