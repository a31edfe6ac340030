/** apps/bot/src/payments/tron.ts and domain/payments.ts: handing 99 sub-cent tags to open invoices.

    A checkout scans the open invoices, reserves a tag in Redis with SET NX PX, and creates its
    row. The machine below interleaves any number of checkouts under one clock; each takes at most
    `delta` from its scan to its reservation and from there to its row (a slower one has died). */
module TagProtocol {
  import opened Schema
  import opened Money
  import opened TronMatch

  const PAYMENT_WINDOW_MS := 20 * 60 * 1000
  const TRON_TAG_GRACE_MS := 30 * 60 * 1000
  const TAG_HOLD_MS := PAYMENT_WINDOW_MS + TRON_TAG_GRACE_MS

  // ---------------------------------------------------------------- the open invoices

  /** TRON_OPEN_STATUSES. */
  predicate OpenStatus(s: PaymentStatus) {
    s.Pending? || s.Confirming? || s.Underpaid?
  }

  /** The invoice still holds its tag. */
  predicate Holds(p: Payment, now: int) {
    p.provider.Tron? && OpenStatus(p.status) && p.createdAt >= now - TAG_HOLD_MS
  }

  function TakenTags(rows: seq<Payment>, now: int): (r: set<nat>)
    ensures forall t :: t in r <==> exists i: nat :: i < |rows| && Holds(rows[i], now) && TagOf(rows[i].amount) == t
  {
    set i: nat | i < |rows| && Holds(rows[i], now) :: TagOf(rows[i].amount)
  }

  function FreeTags(rows: seq<Payment>, now: int): set<nat> {
    set t: nat | 1 <= t <= TRON_TAG_MAX && t !in TakenTags(rows, now)
  }

  // ---------------------------------------------------------------- allocateTronTag, in place

  /** `tron:tag:<n>` keys and when they expire. */
  class Reservations {
    var expiry: map<nat, int>

    constructor ()
      ensures expiry == map[]
    {
      expiry := map[];
    }

    /** SET key 1 PX ttl NX. */
    method SetNxPx(tag: nat, now: int, ttl: int) returns (ok: bool)
      modifies this
      ensures ok == Vacant(old(expiry), tag, now)
      ensures expiry == if ok then old(expiry)[tag := now + ttl] else old(expiry)
    {
      if tag in expiry && expiry[tag] > now {
        return false;
      }
      expiry := expiry[tag := now + ttl];
      return true;
    }
  }

  predicate Vacant(redis: map<nat, int>, tag: nat, now: int) {
    tag !in redis || redis[tag] <= now
  }

  /** Fisher-Yates, with `draws[i]` the value of `randomInt(i + 1)`. */
  method Shuffled(items: seq<nat>, draws: seq<nat>) returns (out: array<nat>)
    requires |draws| == |items| && forall i | 0 <= i < |draws| :: draws[i] <= i
    ensures fresh(out) && multiset(out[..]) == multiset(items)
  {
    out := new nat[|items|](i requires 0 <= i < |items| => items[i]);
    assert out[..] == items;
    var i := out.Length - 1;
    while i > 0
      invariant -1 <= i < out.Length
      invariant multiset(out[..]) == multiset(items)
    {
      var j := draws[i];
      out[i], out[j] := out[j], out[i];
      i := i - 1;
    }
  }

  lemma SameMembers(a: seq<nat>, b: seq<nat>)
    requires multiset(a) == multiset(b)
    ensures |a| == |b| && forall t :: t in a <==> t in b
  {
    assert forall t :: t in a <==> t in multiset(a);
    assert forall t :: t in b <==> t in multiset(b);
    assert |multiset(a)| == |multiset(b)|;
  }

  /** The free tags in ascending order. */
  method FreeList(rows: seq<Payment>, now: int) returns (free: seq<nat>)
    ensures forall t :: t in free <==> t in FreeTags(rows, now)
  {
    hide TagOf, Holds, TakenTags;
    var taken := TakenTags(rows, now);
    free := [];
    var tag := 1;
    while tag <= TRON_TAG_MAX
      invariant 1 <= tag <= TRON_TAG_MAX + 1
      invariant forall t :: t in free <==> 1 <= t < tag && t !in taken
    {
      if tag !in taken {
        free := free + [tag];
      }
      tag := tag + 1;
    }
  }

  /** Every way the allocation can end. A tag it hands out was free in the table and vacant in
      Redis and is now reserved for the whole hold; it gives up only if every tag is taken or
      reserved, or Redis did not answer; and it never touches another reservation. */
  method AllocateTronTag(rows: seq<Payment>, redis: Reservations, amountCents: int, now: int, draws: nat -> nat, down: nat -> bool)
    returns (r: Result<nat>)
    modifies redis
    ensures r.Ok? ==> r.value in FreeTags(rows, now) && Vacant(old(redis.expiry), r.value, now)
                      && redis.expiry == old(redis.expiry)[r.value := now + TAG_HOLD_MS]
    ensures r.Err? ==> redis.expiry == old(redis.expiry)
    ensures r == Err(OutOfRange) <==> amountCents <= 0
    ensures r == Err(TagsExhausted) ==> forall t | t in FreeTags(rows, now) :: !Vacant(old(redis.expiry), t, now)
    ensures r.Err? ==> r.error.OutOfRange? || r.error.TagsExhausted? || r.error.TagReservation?
    ensures r == Err(TagReservation) ==> exists k :: down(k)
  {
    if amountCents <= 0 {
      return Err(OutOfRange);
    }
    hide FreeTags, TakenTags, Holds, TagOf;
    var free := FreeList(rows, now);
    if |free| == 0 {
      return Err(TagsExhausted);
    }
    var shuffled := Shuffled(free, seq(|free|, i requires 0 <= i => draws(i) % (i + 1)));
    ghost var order := shuffled[..];
    SameMembers(free, order);
    var k := 0;
    while k < shuffled.Length
      invariant 0 <= k <= shuffled.Length
      invariant shuffled[..] == order && redis.expiry == old(redis.expiry)
      invariant forall i | 0 <= i < k :: !Vacant(redis.expiry, order[i], now)
    {
      if down(k) {
        return Err(TagReservation);
      }
      assert shuffled[k] == order[k] && order[k] in order;
      var reserved := redis.SetNxPx(shuffled[k], now, TAG_HOLD_MS);
      if reserved {
        return Ok(shuffled[k]);
      }
      k := k + 1;
    }
    return Err(TagsExhausted);
  }

  // ---------------------------------------------------------------- the protocol

  datatype Checkout =
    | Scanned(at: int, free: set<nat>)
    | Claimed(at: int, tag: nat)

  datatype Tags = Tags(now: int, rows: seq<Payment>, redis: map<nat, int>, checkouts: map<nat, Checkout>)

  datatype Event =
    | Tick(to: int)
    | Scan(checkout: nat)
    | Reserve(checkout: nat, tag: nat)
    | Issue(checkout: nat, cents: nat, order: Option<Id>, user: Id)
    | Die(checkout: nat)
    | Evolve(row: Id, to_: Payment)

  /** What chain-scan may do to an invoice row: bind, settle or expire it. While the row holds its
      tag the amount stays the ask; a row that let its tag go inside the window is closed for good;
      only a row past the hold is expired. */
  predicate RowEvolves(p: Payment, p': Payment, now: int) {
    && p'.provider == p.provider && p'.createdAt == p.createdAt && p'.order == p.order && p'.invoiceAsk == p.invoiceAsk
    && (Holds(p', now) ==> Holds(p, now) && p'.amount == p.amount)
    && (p'.status.Expired? && !p.status.Expired? ==> p.createdAt < now - TAG_HOLD_MS)
  }

  predicate InTime(c: Checkout, now: int, delta: nat) {
    now <= c.at + delta
  }

  function Invoice(cents: nat, tag: nat, order: Option<Id>, user: Id, now: int): Payment {
    var ask := cents * CENTS_TO_USDT6 + tag * TRON_TAG_UNIT_USDT6;
    Payment(Provider.Tron, order, user, ask, None, PaymentStatus.Pending, order.None?, now, 0, Some(ask))
  }

  function Apply(s: Tags, e: Event, delta: nat): Tags {
    match e
    case Tick(to) =>
      if to >= s.now && forall c | c in s.checkouts :: InTime(s.checkouts[c], to, delta) then s.(now := to) else s
    case Scan(c) => s.(checkouts := s.checkouts[c := Scanned(s.now, FreeTags(s.rows, s.now))])
    case Reserve(c, tag) =>
      if c in s.checkouts && s.checkouts[c].Scanned? && tag in s.checkouts[c].free && Vacant(s.redis, tag, s.now)
      then s.(redis := s.redis[tag := s.now + TAG_HOLD_MS], checkouts := s.checkouts[c := Claimed(s.now, tag)])
      else s
    case Issue(c, cents, order, user) =>
      if c in s.checkouts && s.checkouts[c].Claimed? && cents > 0
      then s.(rows := s.rows + [Invoice(cents, s.checkouts[c].tag, order, user, s.now)], checkouts := s.checkouts - {c})
      else s
    case Die(c) => s.(checkouts := s.checkouts - {c})
    case Evolve(i, p) => if i < |s.rows| && RowEvolves(s.rows[i], p, s.now) then s.(rows := s.rows[i := p]) else s
  }

  function Run(s: Tags, events: seq<Event>, delta: nat): Tags
    decreases events
  {
    if events == [] then s else Run(Apply(s, events[0], delta), events[1..], delta)
  }

  function Initial(now: int): Tags {
    Tags(now, [], map[], map[])
  }

  // ---------------------------------------------------------------- no tag is held twice

  /** At most one claim on a tag: an invoice that holds it, or a checkout about to create one. */
  predicate Unique(s: Tags) {
    && (forall i: nat, j: nat | i < |s.rows| && j < |s.rows| && Holds(s.rows[i], s.now) && Holds(s.rows[j], s.now)
                                && TagOf(s.rows[i].amount) == TagOf(s.rows[j].amount) :: i == j)
    && (forall c, d | c in s.checkouts && d in s.checkouts && s.checkouts[c].Claimed? && s.checkouts[d].Claimed?
                      && s.checkouts[c].tag == s.checkouts[d].tag :: c == d)
    && (forall c, i: nat | c in s.checkouts && s.checkouts[c].Claimed? && i < |s.rows| && Holds(s.rows[i], s.now) ::
          TagOf(s.rows[i].amount) != s.checkouts[c].tag)
  }

  /** The reservation outlives the invoice's creation by the hold, but for one delay. */
  predicate RowOk(s: Tags, p: Payment, delta: nat) {
    && p.createdAt <= s.now
    && (p.status.Expired? ==> p.createdAt < s.now - TAG_HOLD_MS)
    && (Holds(p, s.now) ==>
          && 1 <= TagOf(p.amount) <= TRON_TAG_MAX
          && TagOf(p.amount) in s.redis && s.redis[TagOf(p.amount)] >= p.createdAt - delta + TAG_HOLD_MS)
  }

  predicate CheckoutOk(s: Tags, c: Checkout, delta: nat) {
    && c.at <= s.now <= c.at + delta
    && (c.Claimed? ==> 1 <= c.tag <= TRON_TAG_MAX && c.tag in s.redis && s.redis[c.tag] >= c.at + TAG_HOLD_MS)
    && (c.Scanned? ==>
          && (forall t | t in c.free :: 1 <= t <= TRON_TAG_MAX)
          && (forall i: nat | i < |s.rows| && Holds(s.rows[i], s.now) && TagOf(s.rows[i].amount) in c.free ::
                s.rows[i].createdAt >= c.at))
  }

  predicate TagInv(s: Tags, delta: nat) {
    && Unique(s)
    && (forall i: nat | i < |s.rows| :: RowOk(s, s.rows[i], delta))
    && (forall c | c in s.checkouts :: CheckoutOk(s, s.checkouts[c], delta))
  }

  /** A scan that could be too old would have to be older than the reservation it ignores. */
  lemma ReserveIsExclusive(s: Tags, c: nat, tag: nat, delta: nat)
    requires TagInv(s, delta) && 2 * delta < TAG_HOLD_MS
    requires c in s.checkouts && s.checkouts[c].Scanned? && tag in s.checkouts[c].free && Vacant(s.redis, tag, s.now)
    ensures forall i: nat | i < |s.rows| && Holds(s.rows[i], s.now) :: TagOf(s.rows[i].amount) != tag
    ensures forall d | d in s.checkouts && s.checkouts[d].Claimed? :: s.checkouts[d].tag != tag
  {
    assert CheckoutOk(s, s.checkouts[c], delta);
    forall i: nat | i < |s.rows| && Holds(s.rows[i], s.now) ensures TagOf(s.rows[i].amount) != tag {
      assert RowOk(s, s.rows[i], delta);
    }
    forall d | d in s.checkouts && s.checkouts[d].Claimed? ensures s.checkouts[d].tag != tag {
      assert CheckoutOk(s, s.checkouts[d], delta);
    }
  }

  lemma InvoiceTag(cents: nat, tag: nat, order: Option<Id>, user: Id, now: int)
    requires 1 <= tag <= TRON_TAG_MAX
    ensures TagOf(Invoice(cents, tag, order, user, now).amount) == tag
  {
    TaggedAmountDecodes(cents, tag);
  }

  lemma DieKeeps(s: Tags, c: nat, delta: nat)
    requires TagInv(s, delta)
    ensures TagInv(Apply(s, Die(c), delta), delta)
  {
    hide TagOf;
    var s' := Apply(s, Die(c), delta);
    forall d | d in s.checkouts && d != c ensures CheckoutOk(s', s.checkouts[d], delta) {
      assert CheckoutOk(s, s.checkouts[d], delta);
    }
    forall i: nat | i < |s.rows| ensures RowOk(s', s.rows[i], delta) {
      assert RowOk(s, s.rows[i], delta);
    }
  }

  lemma StepKeepsTags(s: Tags, e: Event, delta: nat)
    requires TagInv(s, delta) && 2 * delta < TAG_HOLD_MS
    ensures TagInv(Apply(s, e, delta), delta)
  {
    hide TagOf;
    match e {
      case Reserve(c, tag) =>
        if c in s.checkouts && s.checkouts[c].Scanned? && tag in s.checkouts[c].free && Vacant(s.redis, tag, s.now) {
          ReserveIsExclusive(s, c, tag, delta);
          assert CheckoutOk(s, s.checkouts[c], delta);
          ReserveKeeps(s, c, tag, delta);
        }
      case Issue(c, cents, order, user) =>
        if c in s.checkouts && s.checkouts[c].Claimed? && cents > 0 {
          IssueKeeps(s, c, cents, order, user, delta);
        }
      case Evolve(i, p) =>
        if i < |s.rows| && RowEvolves(s.rows[i], p, s.now) { EvolveKeeps(s, i, p, delta); }
      case Tick(to) => TickKeeps(s, to, delta);
      case Scan(c) => ScanKeeps(s, c, delta);
      case Die(c) => DieKeeps(s, c, delta);
    }
  }

  lemma ReserveKeeps(s: Tags, c: nat, tag: nat, delta: nat)
    requires TagInv(s, delta) && c in s.checkouts && 1 <= tag <= TRON_TAG_MAX && Vacant(s.redis, tag, s.now)
    requires forall i: nat | i < |s.rows| && Holds(s.rows[i], s.now) :: TagOf(s.rows[i].amount) != tag
    requires forall d | d in s.checkouts && s.checkouts[d].Claimed? :: s.checkouts[d].tag != tag
    ensures TagInv(s.(redis := s.redis[tag := s.now + TAG_HOLD_MS], checkouts := s.checkouts[c := Claimed(s.now, tag)]), delta)
  {
    hide TagOf;
    var s' := s.(redis := s.redis[tag := s.now + TAG_HOLD_MS], checkouts := s.checkouts[c := Claimed(s.now, tag)]);
    forall i: nat | i < |s.rows| ensures RowOk(s', s.rows[i], delta) {
      assert RowOk(s, s.rows[i], delta);
    }
    forall d | d in s'.checkouts ensures CheckoutOk(s', s'.checkouts[d], delta) {
      if d != c { assert CheckoutOk(s, s.checkouts[d], delta); }
    }
  }

  lemma IssueKeeps(s: Tags, c: nat, cents: nat, order: Option<Id>, user: Id, delta: nat)
    requires TagInv(s, delta) && c in s.checkouts && s.checkouts[c].Claimed?
    ensures TagInv(s.(rows := s.rows + [Invoice(cents, s.checkouts[c].tag, order, user, s.now)], checkouts := s.checkouts - {c}), delta)
  {
    hide TagOf;
    var tag := s.checkouts[c].tag;
    var p := Invoice(cents, tag, order, user, s.now);
    var s' := s.(rows := s.rows + [p], checkouts := s.checkouts - {c});
    assert CheckoutOk(s, s.checkouts[c], delta);
    InvoiceTag(cents, tag, order, user, s.now);
    forall i: nat | i < |s'.rows| ensures RowOk(s', s'.rows[i], delta) {
      if i < |s.rows| { assert RowOk(s, s.rows[i], delta); }
    }
    forall d | d in s'.checkouts ensures CheckoutOk(s', s'.checkouts[d], delta) {
      assert CheckoutOk(s, s.checkouts[d], delta);
    }
  }

  lemma EvolveKeeps(s: Tags, i: Id, p: Payment, delta: nat)
    requires TagInv(s, delta) && i < |s.rows| && RowEvolves(s.rows[i], p, s.now)
    ensures TagInv(s.(rows := s.rows[i := p]), delta)
  {
    hide TagOf;
    var s' := s.(rows := s.rows[i := p]);
    forall j: nat | j < |s'.rows| ensures RowOk(s', s'.rows[j], delta) {
      assert RowOk(s, s.rows[j], delta);
    }
    forall d | d in s'.checkouts ensures CheckoutOk(s', s'.checkouts[d], delta) {
      assert CheckoutOk(s, s.checkouts[d], delta);
    }
  }

  lemma TickKeeps(s: Tags, to: int, delta: nat)
    requires TagInv(s, delta)
    ensures TagInv(Apply(s, Tick(to), delta), delta)
  {
    hide TagOf;
    var s' := Apply(s, Tick(to), delta);
    if s' != s {
      forall j: nat | j < |s'.rows| ensures RowOk(s', s'.rows[j], delta) {
        assert RowOk(s, s.rows[j], delta);
      }
      forall d | d in s'.checkouts ensures CheckoutOk(s', s'.checkouts[d], delta) {
        assert CheckoutOk(s, s.checkouts[d], delta);
        assert InTime(s.checkouts[d], to, delta);
      }
    }
  }

  lemma ScanKeeps(s: Tags, c: nat, delta: nat)
    requires TagInv(s, delta)
    ensures TagInv(Apply(s, Scan(c), delta), delta)
  {
    hide TagOf;
    var s' := Apply(s, Scan(c), delta);
    forall j: nat | j < |s'.rows| ensures RowOk(s', s'.rows[j], delta) {
      assert RowOk(s, s.rows[j], delta);
    }
    forall d | d in s'.checkouts ensures CheckoutOk(s', s'.checkouts[d], delta) {
      if d != c { assert CheckoutOk(s, s.checkouts[d], delta); }
    }
  }

  lemma {:induction false} RunKeepsTags(s: Tags, events: seq<Event>, delta: nat)
    requires TagInv(s, delta) && 2 * delta < TAG_HOLD_MS
    ensures TagInv(Run(s, events, delta), delta)
    decreases events
  {
    if events != [] {
      StepKeepsTags(s, events[0], delta);
      RunKeepsTags(Apply(s, events[0], delta), events[1..], delta);
    }
  }

  /** The lapse that breaks it: a scan just before the row it should have seen ... */
  const FIRST_CHECKOUT: seq<Event> := [Scan(0), Reserve(0, 1), Tick(TAG_HOLD_MS / 2), Scan(1)]
  /** ... and a reservation that has just run out. */
  const LATE_CHECKOUT: seq<Event> := [Issue(0, 1, None, 0), Tick(TAG_HOLD_MS), Reserve(1, 1), Issue(1, 1, None, 0)]

  function Overlap(): Tags {
    Tags(TAG_HOLD_MS / 2, [], map[1 := TAG_HOLD_MS],
         map[0 := Claimed(0, 1), 1 := Scanned(TAG_HOLD_MS / 2, FreeTags([], TAG_HOLD_MS / 2))])
  }

  lemma {:induction false} RunConcat(s: Tags, a: seq<Event>, b: seq<Event>, delta: nat)
    ensures Run(s, a + b, delta) == Run(Run(s, a, delta), b, delta)
    decreases a
  {
    hide Apply;
    if a == [] {
      assert a + b == b;
    } else {
      RunConcat(Apply(s, a[0], delta), a[1..], b, delta);
      assert (a + b)[1..] == a[1..] + b;
    }
  }

  lemma RunFour(s: Tags, e0: Event, e1: Event, e2: Event, e3: Event, delta: nat)
    ensures Run(s, [e0, e1, e2, e3], delta) == Apply(Apply(Apply(Apply(s, e0, delta), e1, delta), e2, delta), e3, delta)
  {
    hide Apply;
    RunConcat(s, [e0, e1], [e2, e3], delta);
    RunTwo(s, e0, e1, delta);
    RunTwo(Run(s, [e0, e1], delta), e2, e3, delta);
    assert [e0, e1] + [e2, e3] == [e0, e1, e2, e3];
  }

  lemma RunTwo(s: Tags, e0: Event, e1: Event, delta: nat)
    ensures Run(s, [e0, e1], delta) == Apply(Apply(s, e0, delta), e1, delta)
  {
    hide Apply;
    assert [e0, e1][1..] == [e1] && [e1][1..] == [];
    assert Run(Apply(s, e0, delta), [e1], delta) == Run(Apply(Apply(s, e0, delta), e1, delta), [], delta);
  }

  lemma FirstCheckoutOverlaps(delta: nat)
    requires TAG_HOLD_MS <= 2 * delta
    ensures Run(Initial(0), FIRST_CHECKOUT, delta) == Overlap()
  {
    var half := TAG_HOLD_MS / 2;
    assert 1 in FreeTags([], 0);
    hide FreeTags;
    RunFour(Initial(0), Scan(0), Reserve(0, 1), Tick(half), Scan(1), delta);
    var s2 := Apply(Apply(Initial(0), Scan(0), delta), Reserve(0, 1), delta);
    assert s2 == Tags(0, [], map[1 := TAG_HOLD_MS], map[0 := Claimed(0, 1)]);
    assert Apply(s2, Tick(half), delta) == s2.(now := half);
  }

  /** The first checkout issues its invoice, and the hold of its reservation runs out. */
  lemma HoldRunsOut(delta: nat)
    requires TAG_HOLD_MS <= 2 * delta
    ensures var half := TAG_HOLD_MS / 2;
            Apply(Apply(Overlap(), Issue(0, 1, None, 0), delta), Tick(TAG_HOLD_MS), delta)
            == Tags(TAG_HOLD_MS, [Invoice(1, 1, None, 0, half)], map[1 := TAG_HOLD_MS], map[1 := Scanned(half, FreeTags([], half))])
  {
    var half := TAG_HOLD_MS / 2;
    hide FreeTags, TagOf;
    var s1 := Apply(Overlap(), Issue(0, 1, None, 0), delta);
    assert s1 == Tags(half, [Invoice(1, 1, None, 0, half)], map[1 := TAG_HOLD_MS], map[1 := Scanned(half, FreeTags([], half))]);
  }

  lemma LateCheckoutCollides(delta: nat)
    requires TAG_HOLD_MS <= 2 * delta
    ensures !Unique(Run(Overlap(), LATE_CHECKOUT, delta))
  {
    var half := TAG_HOLD_MS / 2;
    var row0, row1 := Invoice(1, 1, None, 0, half), Invoice(1, 1, None, 0, TAG_HOLD_MS);
    assert 1 in FreeTags([], half);
    hide FreeTags, TagOf, Overlap;
    RunFour(Overlap(), Issue(0, 1, None, 0), Tick(TAG_HOLD_MS), Reserve(1, 1), Issue(1, 1, None, 0), delta);
    HoldRunsOut(delta);
    var s2 := Apply(Apply(Overlap(), Issue(0, 1, None, 0), delta), Tick(TAG_HOLD_MS), delta);
    var s3 := Apply(s2, Reserve(1, 1), delta);
    assert s3.rows == [row0] && s3.checkouts == map[1 := Claimed(TAG_HOLD_MS, 1)];
    var s4 := Apply(s3, Issue(1, 1, None, 0), delta);
    assert s4.rows == [row0, row1] && s4.now == TAG_HOLD_MS;
    assert Holds(s4.rows[0], s4.now) && Holds(s4.rows[1], s4.now);
  }

  /** In no run do two invoices inside their window ever hold one tag, if and only if twice the
      longest delay is shorter than the hold. */
  lemma TagsUniqueIff(delta: nat)
    ensures (forall now: int, events: seq<Event> :: Unique(Run(Initial(now), events, delta))) <==> 2 * delta < TAG_HOLD_MS
  {
    if 2 * delta < TAG_HOLD_MS {
      forall now: int, events: seq<Event> ensures Unique(Run(Initial(now), events, delta)) {
        RunKeepsTags(Initial(now), events, delta);
      }
    } else {
      FirstCheckoutOverlaps(delta);
      LateCheckoutCollides(delta);
      RunConcat(Initial(0), FIRST_CHECKOUT, LATE_CHECKOUT, delta);
    }
  }

  // ---------------------------------------------------------------- protocol meets matcher

  predicate OrderClosed(order: Option<Order>, now: int) {
    order.Some? && (!order.value.status.Pending? || (order.value.expiresAt.Some? && order.value.expiresAt.value < now))
  }

  function ToCandidate(p: Payment, id: Id, orders: seq<Order>, now: int): Candidate {
    var order := if p.order.Some? && p.order.value < |orders| then Some(orders[p.order.value]) else None;
    Candidate(id, p.amount, if p.status.Pending? && OrderClosed(order, now) then PaymentStatus.Expired else p.status,
              p.txHash, p.createdAt, p, order)
  }

  predicate Loadable(p: Payment, now: int) {
    p.provider.Tron? && (OpenStatus(p.status) || p.status.Expired?) && p.createdAt >= now - TAG_HOLD_MS
  }

  /** `loadCandidates`, in the order of the table. */
  function LoadCandidates(rows: seq<Payment>, orders: seq<Order>, now: int): (r: seq<Candidate>)
    ensures forall k: nat | k < |r| ::
              r[k].id < |rows| && Loadable(rows[r[k].id], now) && r[k] == ToCandidate(rows[r[k].id], r[k].id, orders, now)
    ensures forall k: nat, l: nat | k < l < |r| :: r[k].id < r[l].id
    ensures forall i: nat | i < |rows| && Loadable(rows[i], now) :: exists k: nat :: k < |r| && r[k].id == i
  {
    if rows == [] then []
    else
      var n := |rows| - 1;
      var front := LoadCandidates(rows[..n], orders, now);
      assert forall i: nat | i < n :: rows[..n][i] == rows[i];
      if Loadable(rows[n], now) then
        var r := front + [ToCandidate(rows[n], n, orders, now)];
        assert r[|front|].id == n;
        assert forall k: nat | k < |front| :: r[k] == front[k];
        r
      else front
  }

  /** A sweep considers exactly the USDT payments of the last 50 minutes that no transfer has been settled for,
      expired ones included, each as it stands; one that waits for the money of an order that is closed, or
      whose time has run out, counts as expired. */
  lemma LoadedIff(rows: seq<Payment>, orders: seq<Order>, now: int, i: nat)
    requires i < |rows|
    ensures var cs, p := LoadCandidates(rows, orders, now), rows[i];
            (exists k: nat :: k < |cs| && cs[k].id == i) <==>
              p.provider.Tron? && !p.status.Paid? && !p.status.Failed? && now - p.createdAt <= 50 * 60 * 1000
    ensures var cs, p := LoadCandidates(rows, orders, now), rows[i];
            forall k: nat | k < |cs| && cs[k].id == i ::
              && cs[k].row == p && cs[k].amount == p.amount && cs[k].txHash == p.txHash && cs[k].createdAt == p.createdAt
              && cs[k].order == (if p.order.Some? && p.order.value < |orders| then Some(orders[p.order.value]) else None)
              && (cs[k].status.Expired? <==>
                    || p.status.Expired?
                    || (p.status.Pending? && cs[k].order.Some?
                        && (!cs[k].order.value.status.Pending?
                            || (cs[k].order.value.expiresAt.Some? && cs[k].order.value.expiresAt.value < now))))
              && (!cs[k].status.Expired? ==> cs[k].status == p.status)
  {
    hide LoadCandidates;
  }

  /** The address on the envelope: in every reachable state, a new transfer that carries the tag of
      an invoice still waiting inside its window is matched to that invoice and to no other, exactly
      if it is the amount asked for and by its tag if it is any other amount. */
  lemma TransferFindsItsInvoice(s: Tags, i: Id, txid: Txid, amount: int, orders: seq<Order>, delta: nat)
    requires TagInv(s, delta)
    requires i < |s.rows| && Holds(s.rows[i], s.now) && s.rows[i].txHash.None?
    requires TagOf(amount) == TagOf(s.rows[i].amount)
    requires forall j: nat | j < |s.rows| :: s.rows[j].txHash != Some(txid)
    ensures var cs := LoadCandidates(s.rows, orders, s.now);
            exists k: nat :: k < |cs| && cs[k].id == i
              && MatchTransfer(txid, amount, cs) == if amount == s.rows[i].amount then Exact(k) else ByTag(k)
  {
    hide TagOf, MatchTransfer, LoadCandidates, OrderClosed;
    var cs := LoadCandidates(s.rows, orders, s.now);
    assert Loadable(s.rows[i], s.now) && RowOk(s, s.rows[i], delta);
    var k: nat :| k < |cs| && cs[k].id == i;
    assert TakesByTag(cs[k], TagOf(amount));
    forall l: nat | l < |cs| && TakesByTag(cs[l], TagOf(amount)) ensures l == k {
      assert RowOk(s, s.rows[cs[l].id], delta);
      assert Holds(s.rows[cs[l].id], s.now);
    }
    SoleHolderMatches(txid, amount, cs, k);
  }

  /** The same for every run of the protocol from the start. */
  lemma EveryRunFindsInvoice(start: int, events: seq<Event>, delta: nat, i: Id, txid: Txid, amount: int, orders: seq<Order>)
    requires 2 * delta < TAG_HOLD_MS
    requires var s := Run(Initial(start), events, delta);
             && i < |s.rows| && Holds(s.rows[i], s.now) && s.rows[i].txHash.None?
             && amount == s.rows[i].amount
             && forall j: nat | j < |s.rows| :: s.rows[j].txHash != Some(txid)
    ensures var s := Run(Initial(start), events, delta);
            var cs := LoadCandidates(s.rows, orders, s.now);
            exists k: nat :: k < |cs| && cs[k].id == i && MatchTransfer(txid, amount, cs) == Exact(k)
  {
    RunKeepsTags(Initial(start), events, delta);
    TransferFindsItsInvoice(Run(Initial(start), events, delta), i, txid, amount, orders, delta);
  }
}
