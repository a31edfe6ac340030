/** `taggedRemainder` of chain-scan.worker.ts: the amount a buyer who paid short is told to send, and
    why sending exactly that buys the order. */
module Remainder {
  import opened Schema
  import opened Sums
  import opened LedgerBook
  import opened Money
  import opened TronMatch
  import Orders
  import TagProtocol
  import opened ChainScan
  import opened Settlement

  // ---------------------------------------------------------------- the amount

  /** The shortfall rounded up to a whole cent, plus the invoice's own tag. */
  function TaggedRemainder(expected: int, effective: int): int
    requires effective < expected
  {
    CeilCents(expected - effective) * CENTS_TO_USDT6 + TagOf(expected) * TRON_TAG_UNIT_USDT6
  }

  /** What the buyer is told to send after one short payment `first` on an ask of `cents` with `tag`. */
  lemma RemainderArithmetic(cents: nat, tag: nat, first: nat)
    requires cents > 0 && 1 <= tag <= TRON_TAG_MAX && first < cents * CENTS_TO_USDT6 + tag * TRON_TAG_UNIT_USDT6
    ensures var ask := cents * CENTS_TO_USDT6 + tag * TRON_TAG_UNIT_USDT6;
            var credited, dust := first / CENTS_TO_USDT6, first % CENTS_TO_USDT6;
            TaggedRemainder(ask, first) == ask - credited * CENTS_TO_USDT6
                                           + if dust < tag * TRON_TAG_UNIT_USDT6 then CENTS_TO_USDT6 else 0
  {
    TaggedAmountDecodes(cents, tag);
  }

  /** The promise holds although the first payment was credited in whole cents. A transfer of exactly
      the remainder carries the invoice's tag; with the credit it covers the ask; it is settled as a
      completion if and only if it is below the ask, and then takes back at least one cent and no more
      than was credited; and either way the buyer gives up the ask plus the first payment's dust. */
  lemma RemainderCoversTheAsk(cents: nat, tag: nat, first: nat)
    requires cents > 0 && 1 <= tag <= TRON_TAG_MAX && first < cents * CENTS_TO_USDT6 + tag * TRON_TAG_UNIT_USDT6
    ensures var ask := cents * CENTS_TO_USDT6 + tag * TRON_TAG_UNIT_USDT6;
            var credited, dust := UsdCents(first), first % CENTS_TO_USDT6;
            var rest := TaggedRemainder(ask, first);
            && rest > 0 && TagOf(rest) == TagOf(ask) == tag
            && rest + credited * CENTS_TO_USDT6 >= ask
            && (rest < ask <==> credited >= 2 || (credited == 1 && dust >= tag * TRON_TAG_UNIT_USDT6))
            && (rest < ask ==> 1 <= CeilCents(ask - rest) <= credited
                               && first + rest - (credited - CeilCents(ask - rest)) * CENTS_TO_USDT6 == ask + dust)
            && (rest >= ask ==> first + rest - (credited + UsdCents(rest - ask)) * CENTS_TO_USDT6 == ask + dust)
  {
    RemainderArithmetic(cents, tag, first);
    TaggedAmountDecodes(cents, tag);
    var ask := cents * CENTS_TO_USDT6 + tag * TRON_TAG_UNIT_USDT6;
    var credited, dust := first / CENTS_TO_USDT6, first % CENTS_TO_USDT6;
    var n := cents - credited + if dust < tag * TRON_TAG_UNIT_USDT6 then 1 else 0;
    assert TaggedRemainder(ask, first) == n * CENTS_TO_USDT6 + tag * TRON_TAG_UNIT_USDT6;
    assert n >= 1;
    TaggedAmountDecodes(n, tag);
  }

  // ---------------------------------------------------------------- the short payment

  /** No short payment on this order yet. */
  predicate NothingShort(db: Db, o: Id) {
    forall i: Id | i < |db.payments| && db.payments[i].provider.Tron? && db.payments[i].order == Some(o) ::
      !db.payments[i].status.Underpaid?
  }

  /** The first short payment is credited in whole cents, and that is what later transfers are
      counted up with. */
  lemma ShortIsCounted(db: Db, chain: Amounts, seen: Seen, expected: int, txid: Txid)
    requires Books(db, chain) && SeenOk(db, seen, txid) && seen.row.order.Some? && NothingShort(db, seen.row.order.value)
    requires UnderpaidTx(db, seen, expected, chain(txid)).Ok?
    ensures var db' := UnderpaidTx(db, seen, expected, chain(txid)).value;
            && PriorUnderpaidCents(db', seen.row.order.value) == UsdCents(chain(txid))
            && BalanceOf(db'.ledger.rows, seen.row.user) == BalanceOf(db.ledger.rows, seen.row.user) + UsdCents(chain(txid))
  {
    var o, cents := seen.row.order.value, UsdCents(chain(txid));
    var db' := UnderpaidTx(db, seen, expected, chain(txid)).value;
    assert !Earned(db.payments, PaymentOfKey(UnderpaidOf(seen.id)));
    forall r | r in db.ledger.rows ensures PriorShare(db'.payments, o)(r) == 0 {
      var n: nat :| n < |db.ledger.rows| && db.ledger.rows[n] == r;
      assert Earned(db.payments, r.payment);
    }
    SumZero(db.ledger.rows, PriorShare(db'.payments, o));
    if cents > 0 {
      var row := db'.ledger.rows[|db.ledger.rows|];
      SumAppend(db.ledger.rows, row, PriorShare(db'.payments, o));
      SumAppend(db.ledger.rows, row, OfUser(seen.row.user));
    }
  }

  // ---------------------------------------------------------------- the remainder buys the order

  /** One UNDERPAID row `u` on an open order, inside its hold, alone with its tag among the rows a
      sweep of time `now` loads; its credit counted and unspent. */
  predicate PaidShort(db: Db, u: Id, o: Id, cents: nat, tag: nat, first: nat, now: int) {
    && cents > 0 && 1 <= tag <= TRON_TAG_MAX && first < cents * CENTS_TO_USDT6 + tag * TRON_TAG_UNIT_USDT6
    && u < |db.payments| && o < |db.orders|
    && var row := db.payments[u];
       && row.provider.Tron? && row.status.Underpaid? && row.order == Some(o) && row.txHash.Some?
       && row.amount == cents * CENTS_TO_USDT6 + tag * TRON_TAG_UNIT_USDT6
       && row.createdAt >= now - TagProtocol.TAG_HOLD_MS
       && !TagProtocol.OrderClosed(Some(db.orders[o]), now)
       && PriorUnderpaidCents(db, o) == UsdCents(first) <= BalanceOf(db.ledger.rows, row.user)
       && SoleTaker(db, u, tag, now)
  }

  function Ask(cents: nat, tag: nat): nat {
    cents * CENTS_TO_USDT6 + tag * TRON_TAG_UNIT_USDT6
  }

  /** No other row a sweep of time `now` loads can take a transfer with this tag. */
  predicate SoleTaker(db: Db, u: Id, tag: nat, now: int) {
    forall i: Id | i < |db.payments| && TagProtocol.Loadable(db.payments[i], now) && TagOf(db.payments[i].amount) == tag
                   && (db.payments[i].txHash.None? || db.payments[i].status.Underpaid?) :: i == u
  }

  lemma SoleTakerMatches(db: Db, u: Id, amount: int, now: int, txid: Txid)
    requires u < |db.payments| && TagProtocol.Loadable(db.payments[u], now)
    requires db.payments[u].txHash.None? || db.payments[u].status.Underpaid?
    requires TagOf(db.payments[u].amount) == TagOf(amount) != 0 && FindTx(db.payments, txid).None?
    requires SoleTaker(db, u, TagOf(amount), now)
    ensures var cs := TagProtocol.LoadCandidates(db.payments, db.orders, now);
            exists k: nat :: k < |cs| && cs[k].id == u
              && MatchTransfer(txid, amount, cs) == if amount == db.payments[u].amount then Exact(k) else ByTag(k)
  {
    hide TagOf, MatchTransfer, FindTx, TagProtocol.LoadCandidates, TagProtocol.OrderClosed;
    var cs := TagProtocol.LoadCandidates(db.payments, db.orders, now);
    var k: nat :| k < |cs| && cs[k].id == u;
    assert TakesByTag(cs[k], TagOf(amount));
    forall l: nat | l < |cs| && TakesByTag(cs[l], TagOf(amount)) ensures l == k {
      assert TagProtocol.Loadable(db.payments[cs[l].id], now);
    }
    SoleHolderMatches(txid, amount, cs, k);
  }

  /** The transfer is recognised as belonging to the short invoice ... */
  lemma RemainderIsMatched(db: Db, u: Id, o: Id, cents: nat, tag: nat, first: nat, now: int, txid: Txid)
    requires PaidShort(db, u, o, cents, tag, first, now) && FindTx(db.payments, txid).None?
    ensures var rest := TaggedRemainder(Ask(cents, tag), first);
            var cs := TagProtocol.LoadCandidates(db.payments, db.orders, now);
            exists k: nat :: k < |cs| && cs[k].id == u
              && MatchTransfer(txid, rest, cs) == if rest == Ask(cents, tag) then Exact(k) else ByTag(k)
  {
    var rest := TaggedRemainder(Ask(cents, tag), first);
    RemainderCoversTheAsk(cents, tag, first);
    TaggedAmountDecodes(cents, tag);
    assert TagProtocol.Loadable(db.payments[u], now);
    hide TagOf, MatchTransfer, TaggedRemainder, PriorUnderpaidCents, BalanceOf, UsdCents, TagProtocol.OrderClosed, FindTx,
         TagProtocol.LoadCandidates, TagProtocol.Loadable;
    assert TagOf(rest) == tag && db.payments[u].amount == Ask(cents, tag) && TagOf(db.payments[u].amount) == tag;
    SoleTakerMatches(db, u, rest, now, txid);
  }

  /** The tables once the transfer has its own row on the order. */
  function WithFollowUp(db: Db, c: Candidate, txid: Txid, received: nat, at: int): Db {
    db.(payments := db.payments + [FollowUp(c, txid, received, at)])
  }

  lemma PriorUnchanged(db: Db, chain: Amounts, c: Candidate, txid: Txid, received: nat, at: int, o: Id)
    requires Books(db, chain)
    ensures PriorUnderpaidCents(WithFollowUp(db, c, txid, received, at), o) == PriorUnderpaidCents(db, o)
  {
    var payments' := WithFollowUp(db, c, txid, received, at).payments;
    forall r | r in db.ledger.rows ensures PriorShare(payments', o)(r) == PriorShare(db.payments, o)(r) {
      var n: nat :| n < |db.ledger.rows| && db.ledger.rows[n] == r;
      assert Earned(db.payments, r.payment);
    }
    SumSame(db.ledger.rows, PriorShare(payments', o), PriorShare(db.payments, o));
  }

  /** A bound row of an open order. */
  predicate Outstanding(db: Db, seen: Seen, o: Id, txid: Txid) {
    && seen.id < |db.payments| && seen == See(db, seen.id) && Carries(seen.row, txid) && seen.row.status.Confirming?
    && seen.row.order == Some(o) && o < |db.orders| && db.orders[o].status.Pending?
  }

  /** What a sale leaves: the order bought for `ask`, the row PAID, the balance moved by `cents`. */
  predicate SoldFor(db: Db, db': Db, seen: Seen, o: Id, ask: int, cents: int) {
    && o < |db'.orders| && db'.orders[o].status.Paid? && db'.orders[o].tronAsk == Some(ask)
    && |db'.payments| == |db.payments| && seen.id < |db'.payments| && db'.payments[seen.id].status.Paid?
    && BalanceOf(db'.ledger.rows, seen.row.user) == BalanceOf(db.ledger.rows, seen.row.user) + cents
  }

  lemma PaysAlone(db: Db, chain: Amounts, seen: Seen, o: Id, expected: int, txid: Txid, clock: int)
    requires Books(db, chain) && Outstanding(db, seen, o, txid) && chain(txid) >= expected
    requires BalanceOf(db.ledger.rows, seen.row.user) >= 0
    ensures var tx := OrderPaidTx(db, seen, expected, chain(txid), txid, clock);
            tx.Ok? && tx.value.Some? && SoldFor(db, tx.value.value, seen, o, expected, UsdCents(chain(txid) - expected))
  {
    var cents := UsdCents(chain(txid) - expected);
    var e := TronEntry(seen, cents, LedgerType.TopUp, OverpaidOf(seen.id));
    assert !Earned(db.payments, PaymentOfKey(e.key));
    hide Books;
    SumAppend(db.ledger.rows, Row(e.user, e.kind, cents, e.order, e.payment), OfUser(e.user));
  }

  lemma PaysWithCredit(db: Db, chain: Amounts, seen: Seen, o: Id, expected: int, txid: Txid, clock: int)
    requires Books(db, chain) && Outstanding(db, seen, o, txid) && chain(txid) < expected
    requires BalanceOf(db.ledger.rows, seen.row.user) >= CeilCents(expected - chain(txid))
    ensures var tx := OrderCompletedTx(db, seen, expected, chain(txid), txid, clock);
            tx.Ok? && tx.value.Some? && SoldFor(db, tx.value.value, seen, o, expected, 0 - CeilCents(expected - chain(txid)))
            && NothingShort(tx.value.value, o)
  {
    var needed: int := CeilCents(expected - chain(txid));
    var e := TronEntry(seen, needed, LedgerType.Purchase, ReclaimOf(seen.id));
    assert !Earned(db.payments, PaymentOfKey(e.key));
    hide Books;
    SumAppend(db.ledger.rows, Row(e.user, e.kind, 0 - needed, e.order, e.payment), OfUser(e.user));
  }

  lemma FollowUpBound(db: Db, chain: Amounts, u: Id, o: Id, c: Candidate, txid: Txid, at: int, now: int)
    requires Books(db, chain) && u < |db.payments| && o < |db.orders| && !TagProtocol.OrderClosed(Some(db.orders[o]), now)
    requires db.payments[u].provider.Tron? && db.payments[u].txHash.Some? && db.payments[u].order == Some(o)
    requires c == TagProtocol.ToCandidate(db.payments[u], u, db.orders, now) && FindTx(db.payments, txid).None?
    ensures var bound := WithFollowUp(db, c, txid, chain(txid), at);
            var seen := See(bound, |db.payments|);
            && BindTx(db.payments, c, txid, chain(txid), at) == Ok(Bound(bound.payments, |db.payments|))
            && Books(bound, chain) && Outstanding(bound, seen, o, txid) && seen.row.user == db.payments[u].user
            && seen.order.Some? && !TagProtocol.OrderClosed(seen.order, now) && bound.ledger == db.ledger
  {
    BindKeeps(db, chain, c, txid, at);
  }

  lemma RoutedAlone(db: Db, seen: Seen, o: Id, ask: int, rest: nat, txid: Txid, now: int, clock: int)
    requires seen.row.order == Some(o) && seen.order.Some? && !TagProtocol.OrderClosed(seen.order, now) && rest >= ask
    requires OrderPaidTx(db, seen, ask, rest, txid, clock).Ok? && OrderPaidTx(db, seen, ask, rest, txid, clock).value.Some?
    ensures SettleTx(db, seen, ask, rest, txid, now, clock) == Ok(OrderPaidTx(db, seen, ask, rest, txid, clock).value.value)
  {
    hide OrderPaidTx, TagProtocol.OrderClosed;
  }

  lemma RoutedWithCredit(db: Db, seen: Seen, o: Id, ask: int, rest: nat, txid: Txid, now: int, clock: int)
    requires seen.row.order == Some(o) && seen.order.Some? && !TagProtocol.OrderClosed(seen.order, now) && rest < ask
    requires rest + PriorUnderpaidCents(db, o) * CENTS_TO_USDT6 >= ask
    requires OrderCompletedTx(db, seen, ask, rest, txid, clock).Ok? && OrderCompletedTx(db, seen, ask, rest, txid, clock).value.Some?
    ensures SettleTx(db, seen, ask, rest, txid, now, clock) == Ok(OrderCompletedTx(db, seen, ask, rest, txid, clock).value.value)
  {
    hide OrderCompletedTx, TagProtocol.OrderClosed, PriorUnderpaidCents;
  }

  function Given(ask: int, rest: nat): int {
    if rest >= ask then UsdCents(rest - ask) else 0 - CeilCents(ask - rest)
  }

  /** A transfer that covers the ask, alone or with the credit of earlier ones, is settled as a sale. */
  lemma SettlesAsSale(db: Db, chain: Amounts, seen: Seen, o: Id, ask: int, txid: Txid, now: int, clock: int)
    requires Books(db, chain) && Outstanding(db, seen, o, txid) && seen.order.Some? && !TagProtocol.OrderClosed(seen.order, now)
    requires BalanceOf(db.ledger.rows, seen.row.user) >= 0
    requires chain(txid) < ask ==>
               && chain(txid) + PriorUnderpaidCents(db, o) * CENTS_TO_USDT6 >= ask
               && BalanceOf(db.ledger.rows, seen.row.user) >= CeilCents(ask - chain(txid))
    ensures var tx := SettleTx(db, seen, ask, chain(txid), txid, now, clock);
            tx.Ok? && SoldFor(db, tx.value, seen, o, ask, Given(ask, chain(txid)))
            && (chain(txid) < ask ==> NothingShort(tx.value, o))
  {
    if chain(txid) >= ask {
      PaysAlone(db, chain, seen, o, ask, txid, clock);
      RoutedAlone(db, seen, o, ask, chain(txid), txid, now, clock);
    } else {
      PaysWithCredit(db, chain, seen, o, ask, txid, clock);
      RoutedWithCredit(db, seen, o, ask, chain(txid), txid, now, clock);
    }
    hide Books, SoldFor, PriorUnderpaidCents, OrderPaidTx, OrderCompletedTx, SettleTx, Outstanding, NothingShort;
  }

  /** ... it gets its own row, and settling that row buys the order for its ask, whether the earlier
      credit is taken back or the transfer covers the ask alone. The buyer has then given up exactly
      the ask and the dust of the first payment: never a whole cent more. */
  lemma RemainderBuysTheOrder(db: Db, chain: Amounts, u: Id, o: Id, cents: nat, tag: nat, first: nat, now: int, txid: Txid,
                              at: int, clock: int)
    requires Books(db, chain) && PaidShort(db, u, o, cents, tag, first, now) && FindTx(db.payments, txid).None?
    requires chain(txid) == TaggedRemainder(Ask(cents, tag), first)
    ensures var ask, rest := Ask(cents, tag), chain(txid);
            var c := TagProtocol.ToCandidate(db.payments[u], u, db.orders, now);
            var bound := WithFollowUp(db, c, txid, rest, at);
            var seen := See(bound, |db.payments|);
            var tx := SettleTx(bound, seen, ask, rest, txid, now, clock);
            && BindTx(db.payments, c, txid, rest, at) == Ok(Bound(bound.payments, |db.payments|))
            && tx.Ok? && SoldFor(bound, tx.value, seen, o, ask, Given(ask, rest))
            && (rest < ask ==> NothingShort(tx.value, o))
            && first + rest - (UsdCents(first) + Given(ask, rest)) * CENTS_TO_USDT6 == ask + first % CENTS_TO_USDT6
  {
    var ask, rest := Ask(cents, tag), chain(txid);
    var c := TagProtocol.ToCandidate(db.payments[u], u, db.orders, now);
    var bound := WithFollowUp(db, c, txid, rest, at);
    FollowUpBound(db, chain, u, o, c, txid, at, now);
    RemainderAccount(cents, tag, first);
    PriorUnchanged(db, chain, c, txid, rest, at, o);
    var seen := See(bound, |db.payments|);
    assert PriorUnderpaidCents(bound, o) == UsdCents(first) <= BalanceOf(bound.ledger.rows, seen.row.user);
    hide *;
    SettlesAsSale(bound, chain, seen, o, ask, txid, now, clock);
  }

  lemma RemainderAccount(cents: nat, tag: nat, first: nat)
    requires cents > 0 && 1 <= tag <= TRON_TAG_MAX && first < Ask(cents, tag)
    ensures var ask, rest := Ask(cents, tag), TaggedRemainder(Ask(cents, tag), first);
            && (rest < ask ==> rest + UsdCents(first) * CENTS_TO_USDT6 >= ask && CeilCents(ask - rest) <= UsdCents(first))
            && first + rest - (UsdCents(first) + Given(ask, rest)) * CENTS_TO_USDT6 == ask + first % CENTS_TO_USDT6
  {
    RemainderCoversTheAsk(cents, tag, first);
  }

  // ---------------------------------------------------------------- from the first payment to the sale

  /** An unpaid invoice `p` of an open order without a short payment, alone with its tag. */
  predicate Waiting(db: Db, p: Id, o: Id, cents: nat, tag: nat, now: int) {
    && cents > 0 && 1 <= tag <= TRON_TAG_MAX && p < |db.payments| && o < |db.orders|
    && var row := db.payments[p];
       && row.provider.Tron? && row.txHash.None? && row.order == Some(o) && row.amount == Ask(cents, tag)
       && row.createdAt >= now - TagProtocol.TAG_HOLD_MS
       && !TagProtocol.OrderClosed(Some(db.orders[o]), now)
       && NothingShort(db, o) && SoleTaker(db, p, tag, now)
  }

  /** The tables once the transfer is on the invoice itself. */
  function WithTransfer(db: Db, p: Id, txid: Txid, received: nat): Db
    requires p < |db.payments|
  {
    db.(payments := db.payments[p := db.payments[p].(txHash := Some(txid), status := PaymentStatus.Confirming,
                                                     received := received, topupReference := false)])
  }

  /** A transfer that carries the tag finds the invoice, and the invoice takes it. */
  lemma FirstIsBound(db: Db, chain: Amounts, p: Id, o: Id, cents: nat, tag: nat, txid: Txid, at: int, now: int)
    requires Books(db, chain) && Waiting(db, p, o, cents, tag, now) && FindTx(db.payments, txid).None?
    ensures var c := TagProtocol.ToCandidate(db.payments[p], p, db.orders, now);
            var bound := WithTransfer(db, p, txid, chain(txid));
            && BindTx(db.payments, c, txid, chain(txid), at) == Ok(Bound(bound.payments, p))
            && Books(bound, chain) && Outstanding(bound, See(bound, p), o, txid)
            && SeenOk(bound, See(bound, p), txid) && NothingShort(bound, o)
  {
    var c := TagProtocol.ToCandidate(db.payments[p], p, db.orders, now);
    BindKeeps(db, chain, c, txid, at);
    var bound := WithTransfer(db, p, txid, chain(txid));
    SeeOk(bound, chain, p, txid);
    hide Books, RowOk;
  }

  lemma FirstIsMatched(db: Db, chain: Amounts, p: Id, o: Id, cents: nat, tag: nat, amount: nat, txid: Txid, now: int)
    requires Books(db, chain) && Waiting(db, p, o, cents, tag, now) && FindTx(db.payments, txid).None?
    requires TagOf(amount) == tag && amount < Ask(cents, tag)
    ensures var cs := TagProtocol.LoadCandidates(db.payments, db.orders, now);
            exists k: nat :: k < |cs| && cs[k].id == p && MatchTransfer(txid, amount, cs) == ByTag(k)
  {
    TaggedAmountDecodes(cents, tag);
    assert RowOk(db.payments[p], |db.orders|, chain);
    assert TagProtocol.Loadable(db.payments[p], now);
    hide Books, TagOf, MatchTransfer, FindTx, TagProtocol.LoadCandidates, TagProtocol.Loadable, SoleTaker;
    SoleTakerMatches(db, p, amount, now, txid);
  }

  lemma NoPriorCredit(db: Db, chain: Amounts, o: Id)
    requires Books(db, chain) && NothingShort(db, o)
    ensures PriorUnderpaidCents(db, o) == 0
  {
    SumZero(db.ledger.rows, PriorShare(db.payments, o));
  }

  /** Too little of it is a short payment. */
  lemma FirstIsShort(db: Db, chain: Amounts, seen: Seen, o: Id, ask: int, txid: Txid, now: int, clock: int)
    requires Books(db, chain) && Outstanding(db, seen, o, txid) && SeenOk(db, seen, txid) && NothingShort(db, o)
    requires !TagProtocol.OrderClosed(seen.order, now) && chain(txid) < ask && BalanceOf(db.ledger.rows, seen.row.user) >= 0
    ensures var tx := SettleTx(db, seen, ask, chain(txid), txid, now, clock);
            && tx == UnderpaidTx(db, seen, ask, chain(txid)) && tx.Ok? && Books(tx.value, chain)
            && tx.value.orders == db.orders
            && tx.value.payments == db.payments[seen.id := seen.row.(status := PaymentStatus.Underpaid, amount := ask)]
            && PriorUnderpaidCents(tx.value, o) == UsdCents(chain(txid))
            && BalanceOf(tx.value.ledger.rows, seen.row.user) == BalanceOf(db.ledger.rows, seen.row.user) + UsdCents(chain(txid))
  {
    NoPriorCredit(db, chain, o);
    assert !Earned(db.payments, PaymentOfKey(UnderpaidOf(seen.id)));
    assert UnderpaidTx(db, seen, ask, chain(txid)).Ok?;
    ShortIsCounted(db, chain, seen, ask, txid);
    CreditKeeps(db, chain, seen, ask, txid);
    hide Books, PriorUnderpaidCents, SeenOk, NothingShort, BalanceOf;
  }

  /** Whatever the rest of the shop does, the credit is still counted. */
  lemma CountStays(db: Db, later: Db, chain: Amounts, o: Id)
    requires Books(db, chain) && Rely(db, later)
    ensures PriorUnderpaidCents(later, o) == PriorUnderpaidCents(db, o)
  {
    var rows := db.ledger.rows;
    forall n: nat | |rows| <= n < |later.ledger.rows| ensures PriorShare(later.payments, o)(later.ledger.rows[n]) == 0 {
      assert NotTron(later.payments, later.ledger.rows[n].payment);
    }
    SumGrows(rows, later.ledger.rows, PriorShare(later.payments, o));
    forall r | r in rows ensures PriorShare(later.payments, o)(r) == PriorShare(db.payments, o)(r) {
      var n: nat :| n < |rows| && rows[n] == r;
      assert Earned(db.payments, r.payment);
    }
    SumSame(rows, PriorShare(later.payments, o), PriorShare(db.payments, o));
  }

  /** What the first transfer leaves: it is bound to the invoice and settled. */
  function AfterFirst(db: Db, p: Id, ask: int, txid: Txid, received: nat, now: int, clock: int): Db
    requires p < |db.payments|
  {
    var bound := WithTransfer(db, p, txid, received);
    Orders.Committed(bound, SettleTx(bound, See(bound, p), ask, received, txid, now, clock))
  }

  /** Between the two payments the rest of the shop does what it likes, but the order stays open, the
      credit unspent, and the hold does not run out before the sweep of time `now`. */
  ghost predicate StillOpen(short: Db, later: Db, p: Id, o: Id, credited: nat, now: int) {
    && Rely(short, later) && p < |short.payments| && o < |short.orders|
    && short.payments[p].createdAt >= now - TagProtocol.TAG_HOLD_MS
    && !TagProtocol.OrderClosed(Some(later.orders[o]), now)
    && credited <= BalanceOf(later.ledger.rows, short.payments[p].user)
  }

  lemma FirstLeg(db: Db, chain: Amounts, p: Id, o: Id, cents: nat, tag: nat, txid: Txid, at: int, now: int, clock: int)
    requires Books(db, chain) && Waiting(db, p, o, cents, tag, now) && FindTx(db.payments, txid).None?
    requires chain(txid) < Ask(cents, tag) && BalanceOf(db.ledger.rows, db.payments[p].user) >= 0
    ensures var short := AfterFirst(db, p, Ask(cents, tag), txid, chain(txid), now, clock);
            && BindTx(db.payments, TagProtocol.ToCandidate(db.payments[p], p, db.orders, now), txid, chain(txid), at)
               == Ok(Bound(WithTransfer(db, p, txid, chain(txid)).payments, p))
            && Books(short, chain) && short.orders == db.orders
            && short.payments == db.payments[p := WithTransfer(db, p, txid, chain(txid)).payments[p]
                                                    .(status := PaymentStatus.Underpaid, amount := Ask(cents, tag))]
            && PriorUnderpaidCents(short, o) == UsdCents(chain(txid))
            && BalanceOf(short.ledger.rows, db.payments[p].user)
               == BalanceOf(db.ledger.rows, db.payments[p].user) + UsdCents(chain(txid))
  {
    FirstIsBound(db, chain, p, o, cents, tag, txid, at, now);
    var bound := WithTransfer(db, p, txid, chain(txid));
    assert !TagProtocol.OrderClosed(See(bound, p).order, now);
    hide Books, Waiting, NothingShort, SeenOk, PriorUnderpaidCents, BalanceOf, SettleTx, UnderpaidTx, UsdCents, BindTx, FindTx;
    FirstIsShort(bound, chain, See(bound, p), o, Ask(cents, tag), txid, now, clock);
  }

  lemma StillShort(db: Db, short: Db, later: Db, chain: Amounts, p: Id, o: Id, cents: nat, tag: nat, first: nat, txid: Txid,
                   now: int, now': int)
    requires Waiting(db, p, o, cents, tag, now) && first < Ask(cents, tag) && now <= now'
    requires Books(short, chain) && short.orders == db.orders && PriorUnderpaidCents(short, o) == UsdCents(first)
    requires short.payments == db.payments[p := WithTransfer(db, p, txid, first).payments[p]
                                                  .(status := PaymentStatus.Underpaid, amount := Ask(cents, tag))]
    requires StillOpen(short, later, p, o, UsdCents(first), now')
    ensures PaidShort(later, p, o, cents, tag, first, now') && later.payments[p] == short.payments[p]
  {
    CountStays(short, later, chain, o);
    hide Books, PriorUnderpaidCents, UsdCents, BalanceOf, NothingShort, TagProtocol.OrderClosed, TagOf, Extends;
    assert SoleTaker(later, p, tag, now');
  }

  /** A sweep of time `now` matches the transfer to invoice `p`. */
  predicate MatchedTo(db: Db, p: Id, txid: Txid, amount: nat, now: int) {
    var cs := TagProtocol.LoadCandidates(db.payments, db.orders, now);
    exists k: nat :: k < |cs| && cs[k].id == p
                     && (MatchTransfer(txid, amount, cs) == Exact(k) || MatchTransfer(txid, amount, cs) == ByTag(k))
  }

  /** What a user's balance gains. */
  function GivenTo(db: Db, db': Db, user: Id): int {
    BalanceOf(db'.ledger.rows, user) - BalanceOf(db.ledger.rows, user)
  }

  /** The remainder arrives. */
  lemma {:induction false} SecondLeg(db: Db, chain: Amounts, p: Id, o: Id, cents: nat, tag: nat, first: nat, txid: Txid, at: int,
                                     now: int, clock: int)
    requires Books(db, chain) && PaidShort(db, p, o, cents, tag, first, now) && FindTx(db.payments, txid).None?
    requires chain(txid) == TaggedRemainder(Ask(cents, tag), first)
    ensures MatchedTo(db, p, txid, chain(txid), now)
    ensures var c := TagProtocol.ToCandidate(db.payments[p], p, db.orders, now);
            var bound := WithFollowUp(db, c, txid, chain(txid), at);
            BindTx(db.payments, c, txid, chain(txid), at) == Ok(Bound(bound.payments, |db.payments|))
    ensures var ask, rest, user := Ask(cents, tag), chain(txid), db.payments[p].user;
            var c := TagProtocol.ToCandidate(db.payments[p], p, db.orders, now);
            var bound := WithFollowUp(db, c, txid, rest, at);
            var seen := See(bound, |db.payments|);
            var tx := SettleTx(bound, seen, ask, rest, txid, now, clock);
            && tx.Ok? && SoldFor(bound, tx.value, seen, o, ask, Given(ask, rest))
            && (rest < ask ==> NothingShort(tx.value, o))
            && first + rest - (UsdCents(first) + GivenTo(db, tx.value, user)) * CENTS_TO_USDT6 == ask + first % CENTS_TO_USDT6
  {
    hide Books, TaggedRemainder, FindTx, UsdCents, BalanceOf, SettleTx, BindTx, MatchTransfer, TagProtocol.LoadCandidates,
         NothingShort, PriorUnderpaidCents, TagProtocol.OrderClosed, SoleTaker;
    RemainderIsMatched(db, p, o, cents, tag, first, now, txid);
    RemainderBuysTheOrder(db, chain, p, o, cents, tag, first, now, txid, at, clock);
  }

  /** From the first payment to the sale. A buyer pays less than the ask of a waiting invoice and then
      exactly the remainder. The first transfer is bound to the invoice and credited, and one that
      carries the tag is matched to it; the second is matched to it, buys the order for its ask, and the
      buyer has given up, over both payments, the ask and the dust of the first. */
  lemma {:induction false} ShortThenRemainder(db: Db, later: Db, chain: Amounts, p: Id, o: Id, cents: nat, tag: nat,
                           txid: Txid, at: int, now: int, clock: int, txid': Txid, at': int, now': int, clock': int)
    requires Books(db, chain) && Waiting(db, p, o, cents, tag, now) && FindTx(db.payments, txid).None?
    requires chain(txid) < Ask(cents, tag) && BalanceOf(db.ledger.rows, db.payments[p].user) >= 0
    requires chain(txid') == TaggedRemainder(Ask(cents, tag), chain(txid)) && now <= now'
    requires StillOpen(AfterFirst(db, p, Ask(cents, tag), txid, chain(txid), now, clock), later, p, o, UsdCents(chain(txid)), now')
    requires FindTx(later.payments, txid').None?
    ensures var c := TagProtocol.ToCandidate(db.payments[p], p, db.orders, now);
            BindTx(db.payments, c, txid, chain(txid), at) == Ok(Bound(WithTransfer(db, p, txid, chain(txid)).payments, p))
    ensures TagOf(chain(txid)) == tag ==> MatchedTo(db, p, txid, chain(txid), now)
    ensures var short := AfterFirst(db, p, Ask(cents, tag), txid, chain(txid), now, clock);
            && short.payments[p].status.Underpaid?
            && GivenTo(db, short, db.payments[p].user) == UsdCents(chain(txid))
    ensures p < |later.payments| && MatchedTo(later, p, txid', chain(txid'), now')
    ensures var c := TagProtocol.ToCandidate(later.payments[p], p, later.orders, now');
            var bound := WithFollowUp(later, c, txid', chain(txid'), at');
            BindTx(later.payments, c, txid', chain(txid'), at') == Ok(Bound(bound.payments, |later.payments|))
    ensures var ask, first, rest, user := Ask(cents, tag), chain(txid), chain(txid'), db.payments[p].user;
            var c := TagProtocol.ToCandidate(later.payments[p], p, later.orders, now');
            var bound := WithFollowUp(later, c, txid', rest, at');
            var seen := See(bound, |later.payments|);
            var tx := SettleTx(bound, seen, ask, rest, txid', now', clock');
            && tx.Ok? && SoldFor(bound, tx.value, seen, o, ask, Given(ask, rest))
            && (rest < ask ==> NothingShort(tx.value, o))
            && first + rest - (UsdCents(first) + GivenTo(later, tx.value, user)) * CENTS_TO_USDT6 == ask + first % CENTS_TO_USDT6
  {
    var ask, first := Ask(cents, tag), chain(txid);
    FirstLeg(db, chain, p, o, cents, tag, txid, at, now, clock);
    var short := AfterFirst(db, p, ask, txid, first, now, clock);
    hide Books, TaggedRemainder, FindTx, UsdCents, BalanceOf, SettleTx, BindTx, MatchTransfer, TagProtocol.LoadCandidates,
         NothingShort, PriorUnderpaidCents, TagProtocol.OrderClosed, SoleTaker, Rely, AfterFirst, TagOf;
    StillShort(db, short, later, chain, p, o, cents, tag, first, txid, now, now');
    RelyKeeps(short, later, chain);
    assert Books(later, chain) && later.payments[p].user == db.payments[p].user;
    if TagOf(first) == tag {
      FirstIsMatched(db, chain, p, o, cents, tag, first, txid, now);
    }
    assert short.payments[p].status.Underpaid? && GivenTo(db, short, db.payments[p].user) == UsdCents(first);
    hide *;
    SecondLeg(later, chain, p, o, cents, tag, first, txid', at', now', clock');
  }

  /** Why one UNDERPAID row: after a second one both hold the tag, and a transfer of any other amount
      than the ask is nobody's. */
  lemma SecondShortIsAmbiguous(db: Db, u: Id, v: Id, amount: int, now: int, txid: Txid)
    requires u < v < |db.payments| && FindTx(db.payments, txid).None?
    requires TagProtocol.Loadable(db.payments[u], now) && TagProtocol.Loadable(db.payments[v], now)
    requires db.payments[u].status.Underpaid? && db.payments[v].status.Underpaid?
    requires TagOf(db.payments[u].amount) == TagOf(db.payments[v].amount) == TagOf(amount) != 0
    requires forall i: Id | i < |db.payments| && TagProtocol.Loadable(db.payments[i], now) :: db.payments[i].amount != amount
    ensures MatchTransfer(txid, amount, TagProtocol.LoadCandidates(db.payments, db.orders, now)) == Unmatched(AmbiguousTag)
  {
    hide TagOf, MatchTransfer;
    var cs := TagProtocol.LoadCandidates(db.payments, db.orders, now);
    var a: nat :| a < |cs| && cs[a].id == u;
    var b: nat :| b < |cs| && cs[b].id == v;
    assert a < b;
    SharedTagIsAmbiguous(txid, amount, cs, a, b);
  }
}
