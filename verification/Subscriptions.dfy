/** packages/core/src/subscriptions.ts: stacked periods and renewals paid from the balance. */
module Subscriptions {
  import opened Schema
  import opened LedgerBook
  import opened Orders

  const DAY_MS := 24 * 60 * 60 * 1000

  // ---------------------------------------------------------------- transactions

  function SubscriptionOf(subs: seq<Subscription>, o: Id): (r: Option<Id>)
    ensures r.Some? ==> r.value < |subs| && subs[r.value].order == o
    ensures r.None? ==> forall s | s in subs :: s.order != o
  {
    if subs == [] then None
    else if subs[|subs| - 1].order == o then Some(|subs| - 1)
    else SubscriptionOf(subs[..|subs| - 1], o)
  }

  predicate Counts(s: Subscription, user: Id, plan: Id, swept: bool) {
    s.user == user && s.plan == plan && (s.status.Active? || (swept && s.status.Expired?))
  }

  /** The latest expiry among the ACTIVE periods of a user and plan, or, with `swept`, among those
      the expiry sweep has closed as well. */
  function LatestExpiry(subs: seq<Subscription>, user: Id, plan: Id, swept: bool): Option<int> {
    if subs == [] then None
    else
      var s := subs[|subs| - 1];
      var rest := LatestExpiry(subs[..|subs| - 1], user, plan, swept);
      if !Counts(s, user, plan, swept) then rest
      else if rest.Some? && rest.value >= s.expiresAt then rest
      else Some(s.expiresAt)
  }

  lemma {:induction false} LatestIs(subs: seq<Subscription>, user: Id, plan: Id, swept: bool)
    ensures var r := LatestExpiry(subs, user, plan, swept);
            && (forall s | s in subs && s.user == user && s.plan == plan && (s.status.Active? || (swept && s.status.Expired?)) ::
                  r.Some? && s.expiresAt <= r.value)
            && (r.Some? ==> exists s :: s in subs && s.user == user && s.plan == plan
                                        && (s.status.Active? || (swept && s.status.Expired?)) && s.expiresAt == r.value)
  {
    if subs != [] {
      LatestIs(subs[..|subs| - 1], user, plan, swept);
      assert forall x | x in subs :: x == subs[|subs| - 1] || x in subs[..|subs| - 1];
    }
  }

  function PeriodMs(plan: Plan, qty: nat): nat
    requires plan.durationDays.Some?
  {
    plan.durationDays.value * qty * DAY_MS
  }

  /** The later of a period's end, if there is one, and the moment of payment. */
  function BaseOf(latest: Option<int>, paidAt: int): int {
    if latest.Some? && latest.value > paidAt then latest.value else paidAt
  }

  function CreateSubscriptionTx(db: Db, o: Id, now: int): Result<Db> {
    if SubscriptionOf(db.subs, o).Some? then Ok(db)
    else if o >= |db.orders| || db.orders[o].plan >= |db.plans| then Err(NotFound)
    else
      var order := db.orders[o];
      var plan := db.plans[order.plan];
      if plan.durationDays.None? then Ok(db)
      else
        var paidAt := if order.paidAt.Some? then order.paidAt.value else now;
        var base := BaseOf(LatestExpiry(db.subs, order.user, order.plan, false), paidAt);
        var sub := Subscription(order.user, order.plan, o, paidAt, base + PeriodMs(plan, order.qty), false, Active);
        Ok(db.(subs := db.subs + [sub]))
  }

  function Sweep(s: Subscription, now: int): Subscription {
    if s.status.Active? && s.expiresAt <= now then s.(status := SubStatus.Expired) else s
  }

  function ExpireSubscriptionsTx(db: Db, now: int): Db {
    db.(subs := seq(|db.subs|, i requires 0 <= i < |db.subs| => Sweep(db.subs[i], now)))
  }

  /** What `renewFromBalance` read before its transaction; possibly stale when that commits. */
  datatype Snapshot = Snapshot(sub: Id, row: Subscription, priceCents: int, durationDays: nat)

  const DEFAULT_RENEWAL_DAYS := 30

  function TakeSnapshot(db: Db, s: Id): Result<Snapshot> {
    if s >= |db.subs| || !db.subs[s].status.Active? || db.subs[s].plan >= |db.plans| then Err(NotFound)
    else
      var plan := db.plans[db.subs[s].plan];
      if !plan.isActive then Err(StockUnavailable)
      else if BalanceOf(db.ledger.rows, db.subs[s].user) < plan.priceCents then Err(InsufficientBalance)
      else Ok(Snapshot(s, db.subs[s], plan.priceCents,
                       if plan.durationDays.Some? then plan.durationDays.value else DEFAULT_RENEWAL_DAYS))
  }

  function RenewalEntry(seen: Snapshot): Entry {
    Entry(seen.row.user, seen.priceCents, LedgerType.Purchase, None, None, RenewalOf(seen.sub, seen.row.expiresAt))
  }

  function RenewalOrder(seen: Snapshot, now: int): Order {
    Order(seen.row.user, seen.row.plan, 1, if seen.priceCents > 0 then seen.priceCents else 0, OrderStatus.Paid, None, None,
          RenewalOrderOf(seen.sub, seen.row.expiresAt), now, Some(now), None, None, None)
  }

  function Successor(seen: Snapshot, o: Id, now: int): Subscription {
    var startsAt := if seen.row.expiresAt > now then seen.row.expiresAt else now;
    Subscription(seen.row.user, seen.row.plan, o, startsAt, startsAt + seen.durationDays * DAY_MS, seen.row.autoRenew, Active)
  }

  function RenewTx(db: Db, seen: Snapshot, now: int): Result<Db> {
    if seen.sub >= |db.subs| then Err(NotFound)
    else
      var ledger :- if seen.priceCents > 0 then Booked(db.ledger, Debit(RenewalEntry(seen))) else Ok(db.ledger);
      if FindByKey(db.orders, RenewalOrderOf(seen.sub, seen.row.expiresAt)).Some? then Err(UniqueViolation)
      else
        var closed := db.subs[seen.sub := db.subs[seen.sub].(status := SubStatus.Expired)];
        Ok(db.(ledger := ledger,
               orders := db.orders + [RenewalOrder(seen, now)],
               subs := closed + [Successor(seen, |db.orders|, now)]))
  }

  // ---------------------------------------------------------------- the same, in place

  method CreateSubscriptionForOrder(db: Database, o: Id, now: int) returns (r: Result<()>)
    modifies db`subs
    ensures Commits(old(db.View()), db.View(), r, CreateSubscriptionTx(old(db.View()), o, now))
  {
    var existing := SubscriptionOf(db.subs, o);
    if existing.Some? {
      return Ok(());
    }
    if o >= |db.orders| || db.orders[o].plan >= |db.plans| {
      return Err(NotFound);
    }
    var order := db.orders[o];
    var plan := db.plans[order.plan];
    if plan.durationDays.None? {
      return Ok(());
    }
    var current := LatestExpiry(db.subs, order.user, order.plan, false);
    var paidAt := if order.paidAt.Some? then order.paidAt.value else now;
    var base := paidAt;
    if current.Some? && current.value > paidAt {
      base := current.value;
    }
    db.subs := db.subs + [Subscription(order.user, order.plan, o, paidAt, base + PeriodMs(plan, order.qty), false, Active)];
    return Ok(());
  }

  method RenewFromBalance(db: Database, s: Id, now: int) returns (r: Result<()>)
    modifies db
    ensures var seen := TakeSnapshot(old(db.View()), s);
            Commits(old(db.View()), db.View(), r,
                    if seen.Ok? then RenewTx(old(db.View()), seen.value, now) else Err(seen.error))
  {
    var begin := db.View();
    var snapshot := TakeSnapshot(begin, s);
    if snapshot.Err? {
      return Err(snapshot.error);
    }
    var seen := snapshot.value;
    if seen.priceCents > 0 {
      var debited := DebitUser(db, RenewalEntry(seen));
      if debited.Err? {
        return Err(debited.error);
      }
    }
    var duplicate := FindByKey(db.orders, RenewalOrderOf(seen.sub, seen.row.expiresAt));
    if duplicate.Some? {
      db.Rollback(begin);
      return Err(UniqueViolation);
    }
    db.orders := db.orders + [RenewalOrder(seen, now)];
    db.subs := db.subs[seen.sub := db.subs[seen.sub].(status := SubStatus.Expired)];
    db.subs := db.subs + [Successor(seen, |db.orders| - 1, now)];
    return Ok(());
  }

  // ---------------------------------------------------------------- one period per order

  /** The row a subscription order is to have: its buyer's and plan's, from the payment on. It ends the
      plan's days, times the quantity, after the payment, or after the last ACTIVE period of that buyer and
      plan if that ends later. */
  ghost predicate IsPeriodOf(subs: seq<Subscription>, order: Order, days: nat, o: Id, paidAt: int, s: Subscription) {
    && s == Subscription(order.user, order.plan, o, paidAt, s.expiresAt, false, Active)
    && var base := s.expiresAt - days * order.qty * 86_400_000;
       && base >= paidAt
       && (forall x | x in subs && x.user == order.user && x.plan == order.plan && x.status.Active? :: base >= x.expiresAt)
       && (base != paidAt ==>
             exists x :: x in subs && x.user == order.user && x.plan == order.plan && x.status.Active? && x.expiresAt == base)
  }

  /** An order that has its period keeps it and gets no other; one of a subscription plan that has none gets
      exactly that one, at the end of the table; one of another plan gets none. */
  lemma PeriodCreated(db: Db, o: Id, now: int)
    requires o < |db.orders| && db.orders[o].plan < |db.plans|
    ensures var tx, order, days := CreateSubscriptionTx(db, o, now), db.orders[o], db.plans[db.orders[o].plan].durationDays;
            && tx.Ok?
            && if days.None? || (exists s :: s in db.subs && s.order == o) then tx.value == db
               else && |tx.value.subs| == |db.subs| + 1 && tx.value == db.(subs := db.subs + [tx.value.subs[|db.subs|]])
                    && IsPeriodOf(db.subs, order, days.value, o, if order.paidAt.Some? then order.paidAt.value else now,
                                  tx.value.subs[|db.subs|])
  {
    LatestIs(db.subs, db.orders[o].user, db.orders[o].plan, false);
  }

  /** The first period of a buyer and plan runs for the plan's days, times the quantity, from the payment. */
  lemma FirstPeriodRuns(db: Db, o: Id, now: int)
    requires Bought(db, o) && forall s | s in db.subs :: s.order != o
    requires forall s | s in db.subs :: !(s.user == db.orders[o].user && s.plan == db.orders[o].plan && s.status.Active?)
    ensures var tx, order := CreateSubscriptionTx(db, o, now), db.orders[o];
            tx.Ok? && |tx.value.subs| == |db.subs| + 1
            && tx.value.subs[|db.subs|].startsAt == order.paidAt.value
            && tx.value.subs[|db.subs|].expiresAt
               == order.paidAt.value + db.plans[order.plan].durationDays.value * order.qty * 86_400_000
  {
    PeriodCreated(db, o, now);
    hide CreateSubscriptionTx;
  }

  /** The sweep closes exactly the ACTIVE periods that are over. */
  lemma SweepClosesExactly(db: Db, now: int, i: Id)
    requires i < |db.subs|
    ensures var swept := ExpireSubscriptionsTx(db, now);
            && swept == db.(subs := swept.subs) && |swept.subs| == |db.subs|
            && (if db.subs[i].status.Active? && db.subs[i].expiresAt <= now
                then swept.subs[i] == db.subs[i].(status := SubStatus.Expired)
                else swept.subs[i] == db.subs[i])
  {
  }

  // ---------------------------------------------------------------- stacking

  /** A run of `createSubscriptionForOrder` calls. */
  function CreateAll(db: Db, calls: seq<Id>, now: int): Db {
    if calls == [] then db
    else
      var before := CreateAll(db, calls[..|calls| - 1], now);
      var tx := CreateSubscriptionTx(before, calls[|calls| - 1], now);
      if tx.Ok? then tx.value else before
  }

  /** The calls that were not repeats, in order. */
  function Distinct(calls: seq<Id>): seq<Id> {
    if calls == [] then []
    else
      var front := Distinct(calls[..|calls| - 1]);
      if calls[|calls| - 1] in front then front else front + [calls[|calls| - 1]]
  }

  /** A paid order of a subscription plan. */
  predicate Bought(db: Db, o: Id) {
    && o < |db.orders|
    && db.orders[o].paidAt.Some?
    && db.orders[o].plan < |db.plans|
    && db.plans[db.orders[o].plan].durationDays.Some?
  }

  predicate BoughtBy(db: Db, ids: seq<Id>, user: Id, plan: Id) {
    forall o | o in ids :: Bought(db, o) && db.orders[o].user == user && db.orders[o].plan == plan
  }

  /** When an order was paid and for how long. */
  datatype Buy = Buy(paidAt: int, period: nat)

  function BuyOf(db: Db, o: Id): Buy {
    if Bought(db, o) then Buy(db.orders[o].paidAt.value, db.plans[db.orders[o].plan].durationDays.value * db.orders[o].qty * 86_400_000)
    else Buy(0, 0)
  }

  function Buys(db: Db, ids: seq<Id>): seq<Buy> {
    seq(|ids|, i requires 0 <= i < |ids| => BuyOf(db, ids[i]))
  }

  /** All that was bought from the `k`-th purchase on. */
  function PeriodsFrom(buys: seq<Buy>, k: nat): nat
    requires k <= |buys|
    decreases |buys| - k
  {
    if k == |buys| then 0 else buys[k].period + PeriodsFrom(buys, k + 1)
  }

  /** `e` is the maximum over k of paidAt_k + the periods bought from k on. */
  ghost predicate IsStackedExpiry(buys: seq<Buy>, e: int) {
    && (exists k: nat | k < |buys| :: e == buys[k].paidAt + PeriodsFrom(buys, k))
    && (forall k: nat | k < |buys| :: e >= buys[k].paidAt + PeriodsFrom(buys, k))
  }

  lemma {:induction false} PeriodsAppend(buys: seq<Buy>, b: Buy, k: nat)
    requires k <= |buys|
    ensures PeriodsFrom(buys + [b], k) == PeriodsFrom(buys, k) + b.period
    decreases |buys| - k
  {
    if k < |buys| {
      PeriodsAppend(buys, b, k + 1);
    } else {
      assert PeriodsFrom(buys + [b], k + 1) == 0;
    }
  }

  lemma StackedStep(buys: seq<Buy>, b: Buy, latest: Option<int>)
    requires latest.Some? <==> buys != []
    requires latest.Some? ==> IsStackedExpiry(buys, latest.value)
    ensures IsStackedExpiry(buys + [b], BaseOf(latest, b.paidAt) + b.period)
  {
    var all, e := buys + [b], BaseOf(latest, b.paidAt) + b.period;
    forall k: nat | k <= |buys| ensures PeriodsFrom(all, k) == PeriodsFrom(buys, k) + b.period {
      PeriodsAppend(buys, b, k);
    }
    forall k: nat | k < |all| ensures e >= all[k].paidAt + PeriodsFrom(all, k) {
      if k < |buys| {
        assert latest.value >= buys[k].paidAt + PeriodsFrom(buys, k);
      }
    }
    if latest.Some? && latest.value > b.paidAt {
      var k: nat :| k < |buys| && latest.value == buys[k].paidAt + PeriodsFrom(buys, k);
      assert e == all[k].paidAt + PeriodsFrom(all, k);
    } else {
      assert e == all[|buys|].paidAt + PeriodsFrom(all, |buys|);
    }
  }

  lemma LatestAppend(subs: seq<Subscription>, s: Subscription, user: Id, plan: Id)
    ensures LatestExpiry(subs + [s], user, plan, false) ==
            var rest := LatestExpiry(subs, user, plan, false);
            if !Counts(s, user, plan, false) then rest
            else if rest.Some? && rest.value >= s.expiresAt then rest else Some(s.expiresAt)
  {
    assert (subs + [s])[..|subs|] == subs;
  }

  /** What a run of calls leaves: exactly the first call of each order made its period, and the
      last period ends at the maximum over k of paidAt_k plus all that was bought from k on. */
  ghost predicate Stacked(db: Db, calls: seq<Id>, user: Id, plan: Id, after: Db) {
    var latest := LatestExpiry(after.subs, user, plan, false);
    && after == db.(subs := after.subs)
    && |after.subs| == |db.subs| + |Distinct(calls)|
    && (forall o :: SubscriptionOf(after.subs, o).Some? <==> SubscriptionOf(db.subs, o).Some? || o in Distinct(calls))
    && (latest.Some? <==> Distinct(calls) != [])
    && (latest.Some? ==> IsStackedExpiry(Buys(db, Distinct(calls)), latest.value))
  }

  lemma StackOne(db: Db, o: Id, user: Id, plan: Id, now: int)
    requires BoughtBy(db, [o], user, plan) && SubscriptionOf(db.subs, o).None?
    ensures var tx := CreateSubscriptionTx(db, o, now);
            && tx.Ok? && tx.value == db.(subs := tx.value.subs)
            && |tx.value.subs| == |db.subs| + 1
            && LatestExpiry(tx.value.subs, user, plan, false)
               == Some(BaseOf(LatestExpiry(db.subs, user, plan, false), BuyOf(db, o).paidAt) + BuyOf(db, o).period)
            && (forall x :: SubscriptionOf(tx.value.subs, x).Some? <==> SubscriptionOf(db.subs, x).Some? || x == o)
  {
    assert o in [o];
    var after := CreateSubscriptionTx(db, o, now).value;
    var s := after.subs[|db.subs|];
    assert after.subs == db.subs + [s];
    LatestAppend(db.subs, s, user, plan);
    assert after.subs[..|db.subs|] == db.subs;
  }

  /** No paid day is lost: for every sequence of calls, in any order and with any repeats. */
  lemma {:induction false} StackingClosedForm(db: Db, calls: seq<Id>, user: Id, plan: Id, now: int)
    requires BoughtBy(db, calls, user, plan)
    requires forall o | o in calls :: SubscriptionOf(db.subs, o).None?
    requires forall s | s in db.subs :: !Counts(s, user, plan, false)
    ensures Stacked(db, calls, user, plan, CreateAll(db, calls, now))
  {
    if calls == [] {
      NoneCounts(db.subs, user, plan);
    } else {
      var front, o := calls[..|calls| - 1], calls[|calls| - 1];
      StackingClosedForm(db, front, user, plan, now);
      var before := CreateAll(db, front, now);
      var ids := Distinct(front);
      assert o in calls;
      if o !in ids {
        StackOne(before, o, user, plan, now);
        assert BuyOf(before, o) == BuyOf(db, o);
        StackedStep(Buys(db, ids), BuyOf(db, o), LatestExpiry(before.subs, user, plan, false));
        assert Buys(db, ids + [o]) == Buys(db, ids) + [BuyOf(db, o)];
      }
    }
  }

  lemma {:induction false} NoneCounts(subs: seq<Subscription>, user: Id, plan: Id)
    requires forall s | s in subs :: !Counts(s, user, plan, false)
    ensures LatestExpiry(subs, user, plan, false) == None
  {
    if subs != [] {
      NoneCounts(subs[..|subs| - 1], user, plan);
    }
  }

  lemma {:induction false} SweptCountsMore(subs: seq<Subscription>, user: Id, plan: Id)
    ensures var live, ever := LatestExpiry(subs, user, plan, false), LatestExpiry(subs, user, plan, true);
            live.Some? ==> ever.Some? && ever.value >= live.value
  {
    if subs != [] {
      SweptCountsMore(subs[..|subs| - 1], user, plan);
    }
  }

  /** The expiry sweep can make stacking lose days. A period bought at `paidAt` but created later
      continues the last period there has ever been exactly when no row closed by the sweep ends
      after both the payment and every period still ACTIVE. */
  lemma NoDayLostIff(db: Db, o: Id, now: int)
    requires Bought(db, o) && SubscriptionOf(db.subs, o).None?
    ensures var order := db.orders[o];
            var live := LatestExpiry(db.subs, order.user, order.plan, false);
            var ever := LatestExpiry(db.subs, order.user, order.plan, true);
            var tx := CreateSubscriptionTx(db, o, now);
            && tx.Ok? && |tx.value.subs| == |db.subs| + 1
            && (tx.value.subs[|db.subs|].expiresAt
                  == BaseOf(ever, BuyOf(db, o).paidAt) + BuyOf(db, o).period
                <==> (ever.Some? ==> ever.value <= BuyOf(db, o).paidAt || (live.Some? && ever.value <= live.value)))
  {
    SweptCountsMore(db.subs, db.orders[o].user, db.orders[o].plan);
  }

  /** The losing case exists: one ten-day period, a second one paid on its fifth day and created
      after the sweep has closed the first, ends five days early. */
  lemma SweepLosesDays()
    ensures exists db: Db, o: Id, now: int ::
              && Bought(db, o)
              && var swept := ExpireSubscriptionsTx(db, now);
                 var kept, lost := CreateSubscriptionTx(db, o, now), CreateSubscriptionTx(swept, o, now);
                 && kept.Ok? && lost.Ok? && |kept.value.subs| == |lost.value.subs| == 2
                 && kept.value.subs[1].expiresAt - lost.value.subs[1].expiresAt == 5 * DAY_MS
  {
    var plan := Plan(100, 0, Some(10), true, StockPool);
    var first := Order(0, 0, 1, 100, Delivered, None, Some("a"), ClientKey("a"), 0, Some(0), None, None, None);
    var second := first.(status := OrderStatus.Paid, payload := None, key := ClientKey("b"), paidAt := Some(5 * DAY_MS));
    var row := Subscription(0, 0, 0, 0, 10 * DAY_MS, false, Active);
    var db := Db([plan], [first, second], [], EMPTY_LEDGER, [], [], [row], {}, []);
    var now := 11 * DAY_MS;
    assert row.order != 1 && [row][..0] == [];
    var swept := ExpireSubscriptionsTx(db, now);
    assert swept.subs == [row.(status := SubStatus.Expired)];
    assert swept.subs[..0] == [];
    assert LatestExpiry(db.subs, 0, 0, false) == Some(10 * DAY_MS);
    assert LatestExpiry(swept.subs, 0, 0, false) == None;
    var kept, lost := CreateSubscriptionTx(db, 1, now), CreateSubscriptionTx(swept, 1, now);
    assert kept.value.subs[1].expiresAt == 20 * DAY_MS;
    assert lost.value.subs[1].expiresAt == 15 * DAY_MS;
    assert Bought(db, 1);
  }

  /** A renewal leaves no gap and no overlap: the successor starts when the old period ends, or now if
      that is past, runs for the plan's days, and takes over the wish to renew; the old row is closed. */
  lemma RenewalContinues(db: Db, s: Id, now: int)
    requires TakeSnapshot(db, s).Ok? && RenewTx(db, TakeSnapshot(db, s).value, now).Ok?
    ensures var old_, after := db.subs[s], RenewTx(db, TakeSnapshot(db, s).value, now).value;
            && |after.subs| == |db.subs| + 1 && after.subs[s] == old_.(status := SubStatus.Expired)
            && var next := after.subs[|db.subs|];
               && next.status.Active? && next.user == old_.user && next.plan == old_.plan && next.autoRenew == old_.autoRenew
               && next.startsAt >= old_.expiresAt && next.startsAt >= now && (next.startsAt == old_.expiresAt || next.startsAt == now)
               && (var days := db.plans[old_.plan].durationDays;
                   next.expiresAt - next.startsAt == (if days.Some? then days.value else DEFAULT_RENEWAL_DAYS) * DAY_MS)
               && next.order == |db.orders| && after.orders[|db.orders|].status.Paid?
  {
  }

  /** A renewal that is left alone goes through exactly for an ACTIVE period of a plan on sale that the balance
      can pay for, unless it was renewed before; and what is answered otherwise says which of these fails. */
  lemma RenewsIff(db: Db, s: Id, now: int)
    requires s < |db.subs| && db.subs[s].plan < |db.plans| && BalanceOf(db.ledger.rows, db.subs[s].user) >= 0
    requires RenewalOf(s, db.subs[s].expiresAt) !in db.ledger.records
    ensures var seen := TakeSnapshot(db, s);
            seen.Ok? && RenewTx(db, seen.value, now).Ok? <==>
              && db.subs[s].status.Active? && db.plans[db.subs[s].plan].isActive
              && BalanceOf(db.ledger.rows, db.subs[s].user) >= db.plans[db.subs[s].plan].priceCents
              && forall order | order in db.orders :: order.key != RenewalOrderOf(s, db.subs[s].expiresAt)
    ensures var seen, sub := TakeSnapshot(db, s), db.subs[s];
            && (seen == Err(NotFound) <==> !sub.status.Active?)
            && (seen == Err(StockUnavailable) <==> sub.status.Active? && !db.plans[sub.plan].isActive)
            && (seen == Err(InsufficientBalance) <==>
                  && sub.status.Active? && db.plans[sub.plan].isActive
                  && BalanceOf(db.ledger.rows, sub.user) < db.plans[sub.plan].priceCents)
  {
    var seen := TakeSnapshot(db, s);
    if seen.Ok? {
      PostMoves(db.ledger, Debit(RenewalEntry(seen.value)));
    }
    hide BalanceOf, Post;
  }

  /** What it costs: the plan's price, and nothing if that is not positive. The buyer's balance falls by it,
      nobody else's moves, and the one order it adds, PAID as of now, says so. */
  lemma RenewalCosts(db: Db, s: Id, now: int)
    requires TakeSnapshot(db, s).Ok? && RenewTx(db, TakeSnapshot(db, s).value, now).Ok?
    requires RenewalOf(s, db.subs[s].expiresAt) !in db.ledger.records
    ensures var after, sub, price := RenewTx(db, TakeSnapshot(db, s).value, now).value, db.subs[s], db.plans[db.subs[s].plan].priceCents;
            var cost := if price > 0 then price else 0;
            && BooksOnly(db.ledger.rows, after.ledger.rows, Row(sub.user, LedgerType.Purchase, 0 - cost, None, None))
            && after.orders == db.orders + [Order(sub.user, sub.plan, 1, cost, OrderStatus.Paid, None, None,
                                                  RenewalOrderOf(s, sub.expiresAt), now, Some(now), None, None, None)]
            && after == db.(ledger := after.ledger, orders := after.orders, subs := after.subs)
            && forall i: Id | i < |db.subs| && i != s :: i < |after.subs| && after.subs[i] == db.subs[i]
  {
    PostMoves(db.ledger, Debit(RenewalEntry(TakeSnapshot(db, s).value)));
    hide BalanceOf, Post;
  }
}
