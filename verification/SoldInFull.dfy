/** No order paid in USDT is sold for less than was asked for it.

    What a sweep expects for a transfer comes from copies it has read. The proof follows those
    copies: the amount it acts on was asked on an invoice of that very order, or the order is closed
    by the time the sale would commit, or a sweep has gone astray to it, and then the proof says what
    that does. */
module SoldInFull {
  import opened Schema
  import opened Sums
  import opened Money
  import opened Orders
  import opened TronMatch
  import TagProtocol
  import LedgerBook
  import opened ChainScan
  import opened Settlement

  // ---------------------------------------------------------------- amounts that were asked

  predicate Asks(p: Payment, o: Id, a: int) {
    p.provider.Tron? && p.order == Some(o) && p.invoiceAsk == Some(a)
  }

  ghost predicate Asked(payments: seq<Payment>, o: Id, a: int) {
    exists i: Id :: i < |payments| && Asks(payments[i], o, a)
  }

  /** Asked for this order, or the order can no longer be sold, or it is one of `x`: the orders on whose
      row a sweep has fallen back with another order's candidate. */
  ghost predicate AskedOrSold(db: Db, x: set<Id>, o: Id, a: int) {
    o < |db.orders| && (o in x || Asked(db.payments, o, a) || !db.orders[o].status.Pending?)
  }

  /** ... or a sweep of time `now` finds it closed. */
  ghost predicate Fair(db: Db, x: set<Id>, now: int, o: Id, a: int) {
    o < |db.orders| && (o in x || Asked(db.payments, o, a) || TagProtocol.OrderClosed(Some(db.orders[o]), now))
  }

  /** An earlier row that makes `i` a follow-up: still UNDERPAID, or the order is sold. */
  predicate Elder(db: Db, u: Id, i: Id) {
    && u < |db.payments| && i < |db.payments| && db.payments[u].provider.Tron?
    && db.payments[u].order == db.payments[i].order && db.payments[u].createdAt < db.payments[i].createdAt
    && (db.payments[u].status.Underpaid?
        || (db.payments[i].order.Some? && db.payments[i].order.value < |db.orders|
            && !db.orders[db.payments[i].order.value].status.Pending?))
  }

  ghost predicate Follows(db: Db, i: Id) {
    exists u: Id :: Elder(db, u, i)
  }

  ghost predicate AskRow(db: Db, x: set<Id>, i: Id)
    requires i < |db.payments|
  {
    var p := db.payments[i];
    p.provider.Tron? ==>
      && (p.invoiceAsk.None? ==> p.order.Some? && p.txHash.Some? && Follows(db, i))
      && (p.status.Underpaid? ==> p.order.Some?)
      && (p.order.Some? ==>
            && p.order.value < |db.orders|
            && db.orders[p.order.value].createdAt <= p.createdAt
            && (!p.status.Paid? && (p.invoiceAsk.Some? || p.status.Underpaid?) ==> AskedOrSold(db, x, p.order.value, p.amount)))
  }

  ghost predicate AskOrder(db: Db, x: set<Id>, o: Id)
    requires o < |db.orders|
  {
    && (db.orders[o].tronAsk.Some? ==> o in x || Asked(db.payments, o, db.orders[o].tronAsk.value))
    && (db.orders[o].status.Pending? ==> db.orders[o].expiresAt == Some(db.orders[o].createdAt + DEFAULT_ORDER_EXPIRY_MS))
  }

  ghost predicate AskInv(db: Db, x: set<Id>) {
    && (forall i: Id | i < |db.payments| :: AskRow(db, x, i))
    && (forall o: Id | o < |db.orders| :: AskOrder(db, x, o))
  }

  // ---------------------------------------------------------------- amounts a sweep goes by

  ghost predicate CandAsk(db: Db, x: set<Id>, c: Candidate) {
    && CandOk(db, c)
    && (c.txHash.None? ==> c.row.invoiceAsk.Some?)
    && (c.row.order.Some? ==> c.row.order.value < |db.orders|)
    && (c.row.order.Some? && (c.row.invoiceAsk.Some? || c.status.Underpaid?) ==> AskedOrSold(db, x, c.row.order.value, c.amount))
    && (c.status.Underpaid? ==>
          && c.row.order.Some?
          && (db.payments[c.id].status.Underpaid? || !db.orders[c.row.order.value].status.Pending?))
  }

  ghost predicate SeenAsk(db: Db, x: set<Id>, seen: Seen) {
    && seen.id < |db.payments| && db.payments[seen.id].invoiceAsk == seen.row.invoiceAsk
    && (seen.row.order.Some? ==> seen.row.order.value < |db.orders|)
    && (seen.row.order.Some? && seen.row.status.Confirming? && seen.row.invoiceAsk.Some? ==>
          AskedOrSold(db, x, seen.row.order.value, seen.row.amount))
  }

  ghost predicate TaskAsk(db: Db, x: set<Id>, w: Sweep) {
    match w.task
    case Reading(i, expected, _) =>
      && i < |db.payments| && db.payments[i].provider.Tron?
      && (db.payments[i].order.Some? ==>
            && (db.payments[i].order.value in x || OldestOf(w.cs, db.payments[i].order.value).Some?)
            && Fair(db, x, w.now, db.payments[i].order.value, expected))
    case Settling(seen, expected, _) => seen.row.order.Some? ==> Fair(db, x, w.now, seen.row.order.value, expected)
    case Short(seen, expected, _, _) => seen.row.order.Some? && AskedOrSold(db, x, seen.row.order.value, expected)
    case Lacking(seen, expected, _) => seen.row.order.Some? && AskedOrSold(db, x, seen.row.order.value, expected)
    case _ => true
  }

  /** The amount of the oldest candidate of an order. */
  ghost predicate OldestFair(db: Db, x: set<Id>, w: Sweep, o: Id) {
    OldestOf(w.cs, o).Some? ==> Fair(db, x, w.now, o, w.cs[OldestOf(w.cs, o).value].amount)
  }

  ghost predicate KnownFair(db: Db, x: set<Id>, w: Sweep, seen: Seen) {
    seen.row.order.Some? && seen.row.status.Confirming? && OldestOf(w.cs, seen.row.order.value).None? ==>
      Fair(db, x, w.now, seen.row.order.value, seen.row.amount)
  }

  ghost predicate SweepAsk(db: Db, x: set<Id>, w: Sweep) {
    && (forall k: nat | k < |w.cs| :: CandAsk(db, x, w.cs[k]))
    && (forall o: Id | o < |db.orders| :: OldestFair(db, x, w, o))
    && (forall t | t in w.recorded :: SeenAsk(db, x, w.recorded[t]))
    && (!w.task.Loading? ==> forall t | t in w.recorded :: KnownFair(db, x, w, w.recorded[t]))
    && TaskAsk(db, x, w)
  }

  ghost predicate FullInv(s: Wallet, x: set<Id>, chain: Amounts) {
    && Inv(s, chain)
    && AskInv(s.db, x)
    && forall p | p in s.sweeps :: SweepAsk(s.db, x, s.sweeps[p])
  }

  // ---------------------------------------------------------------- sweeps that go astray

  /** The sweep `p` is about to bind transfer `txid` with its candidate at `k`. */
  predicate AboutToBind(s: Wallet, p: nat, k: nat, txid: Txid, at: int, chain: Amounts) {
    && p in s.sweeps && k < |s.sweeps[p].cs|
    && var w := s.sweeps[p];
       && w.task.Idle? && txid in w.listed && txid !in w.flagged && txid !in w.recorded
       && (MatchTransfer(txid, chain(txid), w.cs) == Exact(k) || MatchTransfer(txid, chain(txid), w.cs) == ByTag(k))
       && at > w.cs[k].createdAt
  }

  /** The order `bindTransfer` goes astray to: it falls back on the row a parallel sweep has created for the
      transfer, and that row belongs to another order than the candidate. */
  function StraysTo(payments: seq<Payment>, c: Candidate, txid: Txid): set<Id> {
    var taken := FindTx(payments, txid);
    if c.txHash.Some? && taken.Some? && payments[taken.value].order.Some? && payments[taken.value].order != c.row.order
    then {payments[taken.value].order.value} else {}
  }

  function Strays(s: Wallet, e: Settlement.Event, chain: Amounts): set<Id> {
    if e.Take? && e.sweep in s.sweeps then
      var m := MatchTransfer(e.txid, chain(e.txid), s.sweeps[e.sweep].cs);
      if (m.Exact? || m.ByTag?) && AboutToBind(s, e.sweep, m.at, e.txid, e.at, chain)
      then StraysTo(s.db.payments, s.sweeps[e.sweep].cs[m.at], e.txid) else {}
    else {}
  }

  /** All orders a run went astray to. */
  ghost function Strayed(s: Wallet, events: seq<Settlement.Event>, chain: Amounts): set<Id>
    decreases events
  {
    if events == [] then {} else Strays(s, events[0], chain) + Strayed(Apply(s, events[0], chain), events[1..], chain)
  }

  // ---------------------------------------------------------------- what was asked stays asked

  lemma AskedKept(db: Db, db': Db, o: Id, a: int)
    requires Grows(db, db') && Asked(db.payments, o, a)
    ensures Asked(db'.payments, o, a)
  {
    var i: Id :| i < |db.payments| && Asks(db.payments[i], o, a);
    assert PaymentGrows(db.payments[i], db'.payments[i]);
    assert Asks(db'.payments[i], o, a);
  }

  lemma FairKept(db: Db, x: set<Id>, db': Db, now: int, o: Id, a: int)
    requires Grows(db, db')
    ensures AskedOrSold(db, x, o, a) ==> AskedOrSold(db', x, o, a)
    ensures Fair(db, x, now, o, a) ==> Fair(db', x, now, o, a)
  {
    if o < |db.orders| {
      assert OrderGrows(db.orders[o], db'.orders[o]);
      if Asked(db.payments, o, a) { AskedKept(db, db', o, a); }
    }
  }

  /** An UNDERPAID row stays that, or its order is sold. */
  ghost predicate ShortKept(db: Db, db': Db) {
    |db.payments| <= |db'.payments|
    && forall i: Id | i < |db.payments| && db.payments[i].provider.Tron? && db.payments[i].status.Underpaid? ::
      db'.payments[i].status.Underpaid?
      || (db.payments[i].order.Some? && db.payments[i].order.value < |db'.orders|
          && !db'.orders[db.payments[i].order.value].status.Pending?)
  }

  lemma ElderKept(db: Db, db': Db, u: Id, i: Id)
    requires Grows(db, db') && ShortKept(db, db') && Elder(db, u, i) && db.payments[i].provider.Tron?
    ensures Elder(db', u, i)
  {
    assert PaymentGrows(db.payments[u], db'.payments[u]) && PaymentGrows(db.payments[i], db'.payments[i]);
    if !db.payments[u].status.Underpaid? {
      assert OrderGrows(db.orders[db.payments[i].order.value], db'.orders[db.payments[i].order.value]);
    }
  }

  lemma SweepAskKept(db: Db, x: set<Id>, db': Db, w: Sweep)
    requires Grows(db, db') && ShortKept(db, db') && SweepOk(db, w) && SweepAsk(db, x, w)
    ensures SweepAsk(db', x, w)
  {
    SweepKept(db, db', w);
    forall k: nat | k < |w.cs| ensures CandAsk(db', x, w.cs[k]) {
      var c := w.cs[k];
      assert CandAsk(db, x, c) && CandOk(db', c);
      if c.row.order.Some? {
        FairKept(db, x, db', w.now, c.row.order.value, c.amount);
        if c.status.Underpaid? {
          assert OrderGrows(db.orders[c.row.order.value], db'.orders[c.row.order.value]);
        }
      }
    }
    forall o: Id | o < |db'.orders| ensures OldestFair(db', x, w, o) {
      if OldestOf(w.cs, o).Some? {
        assert CandAsk(db, x, w.cs[OldestOf(w.cs, o).value]);
        assert OldestFair(db, x, w, o);
        FairKept(db, x, db', w.now, o, w.cs[OldestOf(w.cs, o).value].amount);
      }
    }
    forall t | t in w.recorded ensures SeenAsk(db', x, w.recorded[t]) && (!w.task.Loading? ==> KnownFair(db', x, w, w.recorded[t])) {
      var seen := w.recorded[t];
      assert SeenAsk(db, x, seen) && (!w.task.Loading? ==> KnownFair(db, x, w, seen));
      assert SeenOk(db, seen, t) && PaymentGrows(db.payments[seen.id], db'.payments[seen.id]);
      if seen.row.order.Some? { FairKept(db, x, db', w.now, seen.row.order.value, seen.row.amount); }
    }
    TaskAskKept(db, x, db', w);
  }

  lemma TaskAskKept(db: Db, x: set<Id>, db': Db, w: Sweep)
    requires Grows(db, db') && TaskAsk(db, x, w)
    ensures TaskAsk(db', x, w)
  {
    match w.task {
      case Reading(i, expected, _) =>
        assert PaymentGrows(db.payments[i], db'.payments[i]);
        if db.payments[i].order.Some? { FairKept(db, x, db', w.now, db.payments[i].order.value, expected); }
      case Settling(seen, expected, _) =>
        if seen.row.order.Some? { FairKept(db, x, db', w.now, seen.row.order.value, expected); }
      case Short(seen, expected, _, _) => FairKept(db, x, db', w.now, seen.row.order.value, expected);
      case Lacking(seen, expected, _) => FairKept(db, x, db', w.now, seen.row.order.value, expected);
      case _ =>
    }
  }

  // ---------------------------------------------------------------- every step keeps what was asked

  lemma RowKept(db: Db, x: set<Id>, db': Db, i: Id)
    requires Grows(db, db') && ShortKept(db, db') && i < |db.payments| && AskRow(db, x, i)
    requires db.payments[i].provider.Tron? && !db'.payments[i].status.Paid? ==>
               && db'.payments[i].amount == db.payments[i].amount
               && (db'.payments[i].status.Underpaid? ==> db.payments[i].status.Underpaid?)
    ensures AskRow(db', x, i)
  {
    var a, b := db.payments[i], db'.payments[i];
    assert PaymentGrows(a, b);
    if a.provider.Tron? {
      if a.order.Some? {
        assert OrderGrows(db.orders[a.order.value], db'.orders[a.order.value]);
        FairKept(db, x, db', 0, a.order.value, a.amount);
      }
      if a.invoiceAsk.None? {
        var u: Id :| Elder(db, u, i);
        ElderKept(db, db', u, i);
      }
    }
  }

  lemma OrderKeptAsk(db: Db, x: set<Id>, db': Db, o: Id)
    requires Grows(db, db') && o < |db.orders| && AskOrder(db, x, o)
    requires db'.orders[o].tronAsk.Some? && db.orders[o].tronAsk.None? ==> o in x || Asked(db.payments, o, db'.orders[o].tronAsk.value)
    ensures AskOrder(db', x, o)
  {
    assert OrderGrows(db.orders[o], db'.orders[o]);
    if db'.orders[o].tronAsk.Some? && o !in x { AskedKept(db, db', o, db'.orders[o].tronAsk.value); }
  }

  lemma SettleAsks(db: Db, x: set<Id>, db': Db, chain: Amounts, p: Id, cents: int, ask: Option<int>)
    requires AskInv(db, x) && Books(db, chain) && Settles(db, db', p, cents, ask)
    requires var row := db.payments[p];
             && (ask.Some? ==> row.order.value in x || Asked(db.payments, row.order.value, ask.value))
             && (db'.payments[p].status.Underpaid? ==>
                   row.order.Some? && AskedOrSold(db, x, row.order.value, db'.payments[p].amount))
    ensures AskInv(db', x) && ShortKept(db, db')
  {
    hide Conserved, Balanced, UniqueTx, Accounted, BuyerPays;
    SettleKeeps(db, db', chain, p, cents, ask);
    assert PaymentGrows(db.payments[p], db'.payments[p]) && AskRow(db, x, p);
    forall i: Id | i < |db.payments| ensures AskRow(db', x, i) {
      assert AskRow(db, x, i);
      if i != p || !db'.payments[p].status.Underpaid? {
        RowKept(db, x, db', i);
      } else {
        SettledShort(db, x, db', p);
      }
    }
    forall o: Id | o < |db.orders| ensures AskOrder(db', x, o) {
      assert AskOrder(db, x, o);
      OrderKeptAsk(db, x, db', o);
    }
  }

  /** The row that a short transfer leaves UNDERPAID. */
  lemma SettledShort(db: Db, x: set<Id>, db': Db, p: Id)
    requires Grows(db, db') && ShortKept(db, db') && p < |db.payments| && AskRow(db, x, p)
    requires db.payments[p].provider.Tron? && db'.payments[p].status.Underpaid? && db.payments[p].order.Some?
    requires AskedOrSold(db, x, db.payments[p].order.value, db'.payments[p].amount)
    ensures AskRow(db', x, p)
  {
    var a, b := db.payments[p], db'.payments[p];
    assert PaymentGrows(a, b) && OrderGrows(db.orders[a.order.value], db'.orders[a.order.value]);
    FairKept(db, x, db', 0, a.order.value, b.amount);
    if a.invoiceAsk.None? {
      var u: Id :| Elder(db, u, p);
      ElderKept(db, db', u, p);
    }
  }

  lemma RelyAsks(db: Db, x: set<Id>, db': Db, chain: Amounts)
    requires AskInv(db, x) && Books(db, chain) && Rely(db, db')
    ensures AskInv(db', x) && ShortKept(db, db')
  {
    RelyKeeps(db, db', chain);
    forall i: Id | i < |db'.payments| ensures AskRow(db', x, i) {
      if i < |db.payments| {
        assert AskRow(db, x, i);
        if db.payments[i].provider.Tron? { RowKept(db, x, db', i); }
      }
    }
    forall o: Id | o < |db'.orders| ensures AskOrder(db', x, o) {
      if o < |db.orders| {
        assert AskOrder(db, x, o) && OrderKept(db.orders[o], db'.orders[o]);
        OrderKeptAsk(db, x, db', o);
      } else {
        assert FreshOrder(db'.orders[o]);
      }
    }
  }

  lemma OrdersKeptAsk(db: Db, x: set<Id>, db': Db)
    requires Grows(db, db') && db'.orders == db.orders && AskInv(db, x)
    ensures forall o: Id | o < |db'.orders| :: AskOrder(db', x, o)
  {
    forall o: Id | o < |db'.orders| ensures AskOrder(db', x, o) {
      assert AskOrder(db, x, o);
      OrderKeptAsk(db, x, db', o);
    }
  }

  lemma IssueAsks(db: Db, x: set<Id>, chain: Amounts, cents: nat, tag: nat, order: Option<Id>, user: Id, now: int)
    requires AskInv(db, x) && Books(db, chain) && (order.Some? ==> MayInvoice(db.orders, order.value, user, now))
    ensures var db' := db.(payments := db.payments + [TagProtocol.Invoice(cents, tag, order, user, now)]);
            AskInv(db', x) && ShortKept(db, db')
  {
    var p := TagProtocol.Invoice(cents, tag, order, user, now);
    var db' := db.(payments := db.payments + [p]);
    IssueKeeps(db, chain, cents, tag, order, user, now);
    forall i: Id | i < |db'.payments| ensures AskRow(db', x, i) {
      if i < |db.payments| {
        assert AskRow(db, x, i);
        RowKept(db, x, db', i);
      } else if order.Some? {
        assert Asks(db'.payments[i], order.value, p.amount);
      }
    }
    OrdersKeptAsk(db, x, db');
  }

  lemma ExpireAsks(db: Db, x: set<Id>, chain: Amounts, now: int)
    requires AskInv(db, x) && Books(db, chain)
    ensures var db' := db.(payments := ExpireStaleTx(db.payments, now));
            AskInv(db', x) && ShortKept(db, db')
  {
    var db' := db.(payments := ExpireStaleTx(db.payments, now));
    ExpireKeeps(db, chain, now);
    forall i: Id | i < |db'.payments| ensures AskRow(db', x, i) {
      assert AskRow(db, x, i);
      RowKept(db, x, db', i);
    }
    OrdersKeptAsk(db, x, db');
  }

  lemma BindAsks(db: Db, x: set<Id>, chain: Amounts, c: Candidate, txid: Txid, at: int)
    requires AskInv(db, x) && Books(db, chain) && CandAsk(db, x, c) && CanTake(c) && at > c.createdAt
    requires BindTx(db.payments, c, txid, chain(txid), at).Ok?
    ensures var db' := db.(payments := BindTx(db.payments, c, txid, chain(txid), at).value.payments);
            AskInv(db', x) && ShortKept(db, db')
  {
    var tx := BindTx(db.payments, c, txid, chain(txid), at).value;
    var db' := db.(payments := tx.payments);
    BindKeeps(db, chain, c, txid, at);
    assert AskRow(db, x, c.id) && RowOk(db.payments[c.id], |db.orders|, chain);
    OrdersKeptAsk(db, x, db');
    forall i: Id | i < |db'.payments| ensures AskRow(db', x, i) {
      if i < |db.payments| {
        assert AskRow(db, x, i);
        RowKept(db, x, db', i);
      } else {
        assert Elder(db', c.id, i);
      }
    }
  }

  // ---------------------------------------------------------------- the window

  /** While an order can be sold its first invoice is still loaded: the order lives 20 minutes from
      its creation, the invoice is no older than the order, and a candidate may be 50 minutes old. */
  lemma ElderIsLoaded(db: Db, x: set<Id>, now: int, u: Id, i: Id, cs: seq<Candidate>)
    requires AskInv(db, x) && Elder(db, u, i) && db.payments[i].order.Some? && db.payments[i].order.value < |db.orders|
    requires cs == TagProtocol.LoadCandidates(db.payments, db.orders, now)
    ensures TagProtocol.OrderClosed(Some(db.orders[db.payments[i].order.value]), now)
            || exists k: nat :: k < |cs| && cs[k].row.order == db.payments[i].order && cs[k].createdAt < db.payments[i].createdAt
  {
    var o := db.payments[i].order.value;
    assert AskRow(db, x, u) && AskOrder(db, x, o);
    if !TagProtocol.OrderClosed(Some(db.orders[o]), now) {
      assert TagProtocol.Loadable(db.payments[u], now);
      var k: nat :| k < |cs| && cs[k].id == u;
      assert cs[k].row.order == db.payments[i].order && cs[k].createdAt < db.payments[i].createdAt;
    }
  }

  lemma LoadedCandidates(db: Db, x: set<Id>, chain: Amounts, now: int)
    requires AskInv(db, x) && Books(db, chain)
    ensures var cs := TagProtocol.LoadCandidates(db.payments, db.orders, now);
            forall k: nat | k < |cs| :: CandAsk(db, x, cs[k])
  {
    var cs := TagProtocol.LoadCandidates(db.payments, db.orders, now);
    forall k: nat | k < |cs| ensures CandAsk(db, x, cs[k]) {
      assert AskRow(db, x, cs[k].id) && RowOk(db.payments[cs[k].id], |db.orders|, chain);
    }
  }

  /** The oldest candidate is a follow-up of nothing older. */
  lemma OldestIsAsked(db: Db, x: set<Id>, now: int, cs: seq<Candidate>, o: Id, k: nat)
    requires AskInv(db, x) && o < |db.orders| && cs == TagProtocol.LoadCandidates(db.payments, db.orders, now)
    requires OldestOf(cs, o) == Some(k)
    ensures TagProtocol.OrderClosed(Some(db.orders[o]), now) || cs[k].row.invoiceAsk.Some? || cs[k].row.status.Underpaid?
  {
    var c := cs[k];
    assert AskRow(db, x, c.id);
    if c.row.invoiceAsk.None? && !c.row.status.Underpaid? {
      var u: Id :| Elder(db, u, c.id);
      ElderIsLoaded(db, x, now, u, c.id, cs);
    }
  }

  lemma LoadedOldest(db: Db, x: set<Id>, w: Sweep, o: Id)
    requires AskInv(db, x) && o < |db.orders| && w.cs == TagProtocol.LoadCandidates(db.payments, db.orders, w.now)
    ensures OldestFair(db, x, w, o)
  {
    hide OldestOf, TagProtocol.LoadCandidates;
    var oldest := OldestOf(w.cs, o);
    if oldest.Some? {
      OldestIsAsked(db, x, w.now, w.cs, o, oldest.value);
      assert AskRow(db, x, w.cs[oldest.value].id);
      hide AskInv, Follows;
    }
  }

  lemma LoadedKnown(db: Db, x: set<Id>, chain: Amounts, w: Sweep, seen: Seen, txid: Txid)
    requires AskInv(db, x) && Books(db, chain) && SeenOk(db, seen, txid) && SeenAsk(db, x, seen)
    requires w.cs == TagProtocol.LoadCandidates(db.payments, db.orders, w.now)
    ensures KnownFair(db, x, w, seen)
  {
    if seen.row.order.Some? && seen.row.status.Confirming? && OldestOf(w.cs, seen.row.order.value).None? {
      assert AskRow(db, x, seen.id);
      if seen.row.invoiceAsk.None? {
        var u: Id :| Elder(db, u, seen.id);
        ElderIsLoaded(db, x, w.now, u, seen.id, w.cs);
      }
    }
  }

  // ---------------------------------------------------------------- every step of a sweep

  /** Binding changes a candidate only in its `txHash`. */
  lemma {:induction false} OldestSame(cs: seq<Candidate>, cs': seq<Candidate>, o: Id)
    requires |cs| == |cs'| && forall k: nat | k < |cs| :: cs'[k].(txHash := cs[k].txHash) == cs[k]
    ensures OldestOf(cs', o) == OldestOf(cs, o)
  {
    if cs != [] {
      OldestSame(cs[..|cs| - 1], cs'[..|cs| - 1], o);
    }
  }

  ghost predicate SweepsAsk(s: Wallet, x: set<Id>) {
    forall p | p in s.sweeps :: SweepAsk(s.db, x, s.sweeps[p])
  }

  lemma SweepsAskKept(s: Wallet, x: set<Id>, db': Db, chain: Amounts)
    requires Inv(s, chain) && SweepsAsk(s, x) && Grows(s.db, db') && ShortKept(s.db, db')
    ensures forall p | p in s.sweeps :: SweepAsk(db', x, s.sweeps[p])
  {
    forall p | p in s.sweeps ensures SweepAsk(db', x, s.sweeps[p]) {
      SweepAskKept(s.db, x, db', s.sweeps[p]);
    }
  }

  lemma SellsAsked(db: Db, x: set<Id>, chain: Amounts, seen: Seen, expected: int, txid: Txid, clock: int)
    requires AskInv(db, x) && Books(db, chain) && SeenOk(db, seen, txid)
    requires seen.row.order.Some? && AskedOrSold(db, x, seen.row.order.value, expected)
    ensures chain(txid) >= expected ==>
              var tx := OrderPaidTx(db, seen, expected, chain(txid), txid, clock);
              tx.Ok? && tx.value.Some? ==> AskInv(tx.value.value, x) && ShortKept(db, tx.value.value)
    ensures chain(txid) < expected ==>
              var tx := OrderCompletedTx(db, seen, expected, chain(txid), txid, clock);
              tx.Ok? && tx.value.Some? ==> AskInv(tx.value.value, x) && ShortKept(db, tx.value.value)
    ensures var tx := UnderpaidTx(db, seen, expected, chain(txid));
            tx.Ok? ==> AskInv(tx.value, x) && ShortKept(db, tx.value)
  {
    if chain(txid) >= expected {
      PaidAsks(db, x, chain, seen, expected, txid, clock);
    } else {
      CompletedAsks(db, x, chain, seen, expected, txid, clock);
    }
    UnderpaidSettles(db, chain, seen, expected, txid);
    var tx := UnderpaidTx(db, seen, expected, chain(txid));
    if tx.Ok? {
      hide AskInv, Books, AskedOrSold, ShortKept;
      SettleAsks(db, x, tx.value, chain, seen.id, UsdCents(chain(txid)), None);
    }
  }

  lemma PaidAsks(db: Db, x: set<Id>, chain: Amounts, seen: Seen, expected: int, txid: Txid, clock: int)
    requires AskInv(db, x) && Books(db, chain) && SeenOk(db, seen, txid) && chain(txid) >= expected
    requires seen.row.order.Some? && AskedOrSold(db, x, seen.row.order.value, expected)
    ensures var tx := OrderPaidTx(db, seen, expected, chain(txid), txid, clock);
            tx.Ok? && tx.value.Some? ==> AskInv(tx.value.value, x) && ShortKept(db, tx.value.value)
  {
    PaidSettles(db, chain, seen, expected, txid, clock);
    var tx := OrderPaidTx(db, seen, expected, chain(txid), txid, clock);
    if tx.Ok? && tx.value.Some? {
      hide AskInv, Books, ShortKept;
      SettleAsks(db, x, tx.value.value, chain, seen.id, UsdCents(chain(txid) - expected), Some(expected));
    }
  }

  lemma CompletedAsks(db: Db, x: set<Id>, chain: Amounts, seen: Seen, expected: int, txid: Txid, clock: int)
    requires AskInv(db, x) && Books(db, chain) && SeenOk(db, seen, txid) && chain(txid) < expected
    requires seen.row.order.Some? && AskedOrSold(db, x, seen.row.order.value, expected)
    ensures var tx := OrderCompletedTx(db, seen, expected, chain(txid), txid, clock);
            tx.Ok? && tx.value.Some? ==> AskInv(tx.value.value, x) && ShortKept(db, tx.value.value)
  {
    CompletedSettles(db, chain, seen, expected, txid, clock);
    var tx := OrderCompletedTx(db, seen, expected, chain(txid), txid, clock);
    if tx.Ok? && tx.value.Some? {
      hide AskInv, Books, ShortKept;
      SettleAsks(db, x, tx.value.value, chain, seen.id, 0 - CeilCents(expected - chain(txid)), Some(expected));
    }
  }

  lemma CreditsAsk(db: Db, x: set<Id>, chain: Amounts, seen: Seen, txid: Txid)
    requires AskInv(db, x) && Books(db, chain) && SeenOk(db, seen, txid)
    ensures var tx := LateTx(db, seen, chain(txid));
            tx.Ok? ==> AskInv(tx.value, x) && ShortKept(db, tx.value)
    ensures var tx := TopupTx(db, seen, chain(txid));
            tx.Ok? ==> AskInv(tx.value, x) && ShortKept(db, tx.value)
  {
    LateSettles(db, chain, seen, txid);
    TopupSettles(db, chain, seen, txid);
    var late, topup := LateTx(db, seen, chain(txid)), TopupTx(db, seen, chain(txid));
    if late.Ok? { SettleAsks(db, x, late.value, chain, seen.id, UsdCents(chain(txid)), None); }
    if topup.Ok? { SettleAsks(db, x, topup.value, chain, seen.id, UsdCents(chain(txid)), None); }
  }

  lemma ShortKeptSelf(db: Db, x: set<Id>, db': Db)
    requires db' == db.(flagged := db'.flagged)
    ensures ShortKept(db, db') && (AskInv(db, x) ==> AskInv(db', x))
  {
    if AskInv(db, x) {
      forall i: Id | i < |db.payments| ensures AskRow(db', x, i) {
        assert AskRow(db, x, i);
        if db.payments[i].provider.Tron? && db.payments[i].invoiceAsk.None? {
          var u: Id :| Elder(db, u, i);
          assert Elder(db', u, i);
        }
      }
      forall o: Id | o < |db.orders| ensures AskOrder(db', x, o) {
        assert AskOrder(db, x, o);
      }
    }
  }

  /** An order this sweep took for open is open, or sold. */
  lemma FairAndOpen(db: Db, x: set<Id>, now: int, seen: Seen, expected: int, txid: Txid)
    requires SeenOk(db, seen, txid) && seen.row.order.Some? && !TagProtocol.OrderClosed(seen.order, now)
    requires Fair(db, x, now, seen.row.order.value, expected)
    ensures AskedOrSold(db, x, seen.row.order.value, expected)
  {
  }

  lemma SettlingTables(s: Wallet, x: set<Id>, p: nat, clock: int, chain: Amounts)
    requires Inv(s, chain) && AskInv(s.db, x) && SweepsAsk(s, x) && p in s.sweeps && s.sweeps[p].task.Settling?
    ensures var s' := Continue(s, p, clock, chain);
            AskInv(s'.db, x) && ShortKept(s.db, s'.db)
  {
    var w := s.sweeps[p];
    var seen, expected, txid := w.task.seen, w.task.expected, w.task.txid;
    assert SweepOk(s.db, w) && SweepAsk(s.db, x, w);
    assert Books(s.db, chain);
    ShortKeptSelf(s.db, x, s.db);
    CreditsAsk(s.db, x, chain, seen, txid);
    if seen.row.order.Some? && !TagProtocol.OrderClosed(seen.order, w.now) {
      FairAndOpen(s.db, x, w.now, seen, expected, txid);
      SellsAsked(s.db, x, chain, seen, expected, txid, clock);
    }
    hide AskInv, ShortKept, Books, Inv, SweepOk, SweepAsk, SeenOk, Fair, TopupTx, OrderPaidTx, OrderCompletedTx, UnderpaidTx, LateTx;
  }

  lemma ContinueTables(s: Wallet, x: set<Id>, p: nat, clock: int, chain: Amounts)
    requires Inv(s, chain) && AskInv(s.db, x) && SweepsAsk(s, x) && p in s.sweeps
    ensures var s' := Continue(s, p, clock, chain);
            AskInv(s'.db, x) && ShortKept(s.db, s'.db)
  {
    var w := s.sweeps[p];
    assert SweepOk(s.db, w) && SweepAsk(s.db, x, w);
    assert Books(s.db, chain);
    ShortKeptSelf(s.db, x, s.db);
    match w.task {
      case Loading =>
      case Idle =>
      case Reading(i, _, txid) =>
      case Settling(_, _, _) => SettlingTables(s, x, p, clock, chain);
      case Short(seen, expected, txid, prior) =>
        SellsAsked(s.db, x, chain, seen, expected, txid, clock);
        hide AskInv, ShortKept, Books, Inv, SweepOk, SweepAsk, SeenOk, Fair, OrderPaidTx, OrderCompletedTx, UnderpaidTx;
      case Lacking(seen, expected, txid) =>
        SellsAsked(s.db, x, chain, seen, expected, txid, clock);
        hide AskInv, ShortKept, Books, Inv, SweepOk, SweepAsk, SeenOk, Fair, OrderPaidTx, OrderCompletedTx, UnderpaidTx;
      case Late(seen, txid) =>
        CreditsAsk(s.db, x, chain, seen, txid);
        hide AskInv, ShortKept, Books, Inv, SweepOk, SweepAsk, SeenOk, TopupTx, LateTx;
      case Credited(seen, txid) =>
        ShortKeptSelf(s.db, x, FlagDoublePaid(s.db, seen.row.order, txid));
    }
  }

  /** A sweep with the same copies and another task. */
  lemma SameCopies(db: Db, x: set<Id>, w: Sweep, w': Sweep)
    requires SweepAsk(db, x, w) && w'.now == w.now && w'.cs == w.cs && w'.recorded == w.recorded
    requires (w.task.Loading? ==> w'.task.Loading?) && TaskAsk(db, x, w')
    ensures SweepAsk(db, x, w')
  {
    hide CandAsk, SeenAsk, TaskAsk;
    forall o: Id | o < |db.orders| ensures OldestFair(db, x, w', o) {
      assert OldestFair(db, x, w, o);
    }
    forall t | t in w'.recorded && !w'.task.Loading? ensures KnownFair(db, x, w', w'.recorded[t]) {
      assert KnownFair(db, x, w, w.recorded[t]);
    }
  }

  /** The next task goes by a fair amount, too. */
  lemma ContinueTaskAsk(s: Wallet, x: set<Id>, p: nat, clock: int, chain: Amounts)
    requires p in s.sweeps && !s.sweeps[p].task.Reading?
    requires SweepOk(s.db, s.sweeps[p]) && SweepAsk(s.db, x, s.sweeps[p])
    ensures var s' := Continue(s, p, clock, chain);
            && p in s'.sweeps && s'.sweeps == s.sweeps[p := s.sweeps[p].(task := s'.sweeps[p].task)]
            && SweepOk(s.db, s'.sweeps[p]) && SweepAsk(s.db, x, s'.sweeps[p])
  {
    ContinueTask(s, p, clock, chain);
    var w, w' := s.sweeps[p], Continue(s, p, clock, chain).sweeps[p];
    TaskAskStep(s, x, p, clock, chain);
    hide Continue, SweepAsk, TaskAsk, TaskOk, CandOk, SeenOk;
    SameCopies(s.db, x, w, w');
  }

  lemma TaskAskStep(s: Wallet, x: set<Id>, p: nat, clock: int, chain: Amounts)
    requires p in s.sweeps && !s.sweeps[p].task.Reading?
    requires TaskOk(s.db, s.sweeps[p].task) && TaskAsk(s.db, x, s.sweeps[p])
    ensures var s' := Continue(s, p, clock, chain);
            p in s'.sweeps && TaskAsk(s.db, x, s'.sweeps[p]) && (s'.sweeps[p].task.Loading? <==> s.sweeps[p].task.Loading?)
  {
    var w := s.sweeps[p];
    if w.task.Settling? && w.task.seen.row.order.Some? && !TagProtocol.OrderClosed(w.task.seen.order, w.now) {
      FairAndOpen(s.db, x, w.now, w.task.seen, w.task.expected, w.task.txid);
    }
    hide SeenOk, TopupTx, OrderPaidTx, OrderCompletedTx, UnderpaidTx, LateTx, FlagDoublePaid, Fair, AskedOrSold, TagProtocol.OrderClosed,
         PriorUnderpaidCents;
    match w.task {
      case Loading =>
      case Idle =>
      case Settling(seen, expected, txid) =>
      case Short(seen, expected, txid, prior) =>
      case Lacking(seen, expected, txid) =>
      case Late(seen, txid) =>
      case Credited(seen, txid) =>
    }
  }

  lemma ReadAsks(s: Wallet, x: set<Id>, p: nat, clock: int, chain: Amounts)
    requires Inv(s, chain) && AskInv(s.db, x) && p in s.sweeps && s.sweeps[p].task.Reading? && SweepAsk(s.db, x, s.sweeps[p])
    ensures var s' := Continue(s, p, clock, chain);
            s'.db == s.db && s'.sweeps == s.sweeps[p := s'.sweeps[p]] && SweepAsk(s.db, x, s'.sweeps[p])
  {
    var w, w' := s.sweeps[p], Continue(s, p, clock, chain).sweeps[p];
    var i := w.task.row;
    var seen := See(s.db, i);
    assert AskRow(s.db, x, i) && RowOk(s.db.payments[i], |s.db.orders|, chain);
    assert SeenAsk(s.db, x, seen);
    hide CandAsk, AskInv, Inv;
    forall o: Id | o < |s.db.orders| ensures OldestFair(s.db, x, w', o) {
      assert OldestFair(s.db, x, w, o);
    }
    forall t | t in w'.recorded ensures SeenAsk(s.db, x, w'.recorded[t]) && KnownFair(s.db, x, w', w'.recorded[t]) {
      if t != w.task.txid { assert SeenAsk(s.db, x, w.recorded[t]) && KnownFair(s.db, x, w, w.recorded[t]); }
    }
  }

  lemma ContinueAsks(s: Wallet, x: set<Id>, p: nat, clock: int, chain: Amounts)
    requires FullInv(s, x, chain) && p in s.sweeps
    ensures FullInv(Continue(s, p, clock, chain), x, chain)
  {
    var s' := Continue(s, p, clock, chain);
    ContinueKeeps(s, p, clock, chain);
    ContinueTables(s, x, p, clock, chain);
    assert SweepOk(s.db, s.sweeps[p]) && SweepAsk(s.db, x, s.sweeps[p]);
    if s.sweeps[p].task.Reading? {
      ReadAsks(s, x, p, clock, chain);
      hide Continue, SweepAsk, SweepOk, AskInv, ShortKept, Grows, Books;
    } else {
      ContinueTaskAsk(s, x, p, clock, chain);
      hide Continue, SweepAsk, SweepOk, AskInv, ShortKept, Grows, Books;
      SweepsAskKept(s, x, s'.db, chain);
      SweepAskKept(s.db, x, s'.db, s'.sweeps[p]);
    }
  }

  /** The sweep that bound: one candidate carries the transfer now. */
  lemma BoundSweep(db: Db, x: set<Id>, w: Sweep, k: nat, txid: Txid)
    requires k < |w.cs| && w.task.Idle? && SweepAsk(db, x, w)
    ensures SweepAsk(db, x, w.(cs := w.cs[k := w.cs[k].(txHash := Some(txid))]))
    ensures forall o :: OldestOf(w.cs[k := w.cs[k].(txHash := Some(txid))], o) == OldestOf(w.cs, o)
  {
    var w' := w.(cs := w.cs[k := w.cs[k].(txHash := Some(txid))]);
    forall o ensures OldestOf(w'.cs, o) == OldestOf(w.cs, o) {
      OldestSame(w.cs, w'.cs, o);
    }
    assert CandAsk(db, x, w.cs[k]);
    forall o: Id | o < |db.orders| ensures OldestFair(db, x, w', o) {
      assert OldestFair(db, x, w, o);
    }
    forall t | t in w'.recorded ensures KnownFair(db, x, w', w'.recorded[t]) {
      assert KnownFair(db, x, w, w.recorded[t]);
    }
  }

  lemma BindTables(s: Wallet, x: set<Id>, p: nat, k: nat, txid: Txid, at: int, chain: Amounts)
    requires FullInv(s, x, chain) && p in s.sweeps && k < |s.sweeps[p].cs| && CanTake(s.sweeps[p].cs[k])
    ensures var s' := Bind(s, p, k, txid, at, chain);
            AskInv(s'.db, x) && ShortKept(s.db, s'.db)
  {
    ShortKeptSelf(s.db, x, s.db);
    var c := s.sweeps[p].cs[k];
    assert SweepAsk(s.db, x, s.sweeps[p]) && CandAsk(s.db, x, c) && Books(s.db, chain);
    if at > c.createdAt && BindTx(s.db.payments, c, txid, chain(txid), at).Ok? {
      BindAsks(s.db, x, chain, c, txid, at);
    }
  }

  /** The row a sweep binds is on its candidate's order, and the candidate's amount is fair for it; or the
      sweep has gone astray. */
  lemma BoundTask(db: Db, x: set<Id>, w: Sweep, k: nat, txid: Txid, chain: Amounts, at: int)
    requires Books(db, chain) && SweepAsk(db, x, w) && k < |w.cs| && CanTake(w.cs[k])
    requires BindTx(db.payments, w.cs[k], txid, chain(txid), at).Ok? && StraysTo(db.payments, w.cs[k], txid) <= x
    ensures var tx := BindTx(db.payments, w.cs[k], txid, chain(txid), at).value;
            && tx.id < |tx.payments| && tx.payments[tx.id].provider.Tron?
            && var order := tx.payments[tx.id].order;
               order.Some? ==> (order.value in x || OldestOf(w.cs, order.value).Some?) && Fair(db, x, w.now, order.value, w.cs[k].amount)
  {
    assert CandAsk(db, x, w.cs[k]);
    var tx := BindTx(db.payments, w.cs[k], txid, chain(txid), at).value;
    if tx.id < |db.payments| { assert RowOk(db.payments[tx.id], |db.orders|, chain); }
    if tx.payments[tx.id].order != w.cs[k].row.order && tx.payments[tx.id].order.Some? {
      assert StraysTo(db.payments, w.cs[k], txid) == {tx.payments[tx.id].order.value};
    }
  }

  lemma BoundCands(db: Db, w: Sweep, k: nat, txid: Txid)
    requires k < |w.cs| && SweepOk(db, w)
    ensures SweepOk(db, w.(cs := w.cs[k := w.cs[k].(txHash := Some(txid))]))
  {
    assert CandOk(db, w.cs[k]);
    hide SeenOk, TaskOk;
  }

  lemma BoundSweepAsk(db: Db, x: set<Id>, db': Db, w: Sweep, k: nat, txid: Txid, chain: Amounts, at: int)
    requires Books(db, chain) && SweepOk(db, w) && SweepAsk(db, x, w) && w.task.Idle? && k < |w.cs| && CanTake(w.cs[k])
    requires BindTx(db.payments, w.cs[k], txid, chain(txid), at).Ok? && StraysTo(db.payments, w.cs[k], txid) <= x
    requires db' == db.(payments := BindTx(db.payments, w.cs[k], txid, chain(txid), at).value.payments)
    requires Grows(db, db') && ShortKept(db, db')
    ensures var row := BindTx(db.payments, w.cs[k], txid, chain(txid), at).value.id;
            SweepAsk(db', x, w.(cs := w.cs[k := w.cs[k].(txHash := Some(txid))], task := Reading(row, w.cs[k].amount, txid)))
  {
    var row := BindTx(db.payments, w.cs[k], txid, chain(txid), at).value.id;
    var w1 := w.(cs := w.cs[k := w.cs[k].(txHash := Some(txid))]);
    var order := db'.payments[row].order;
    BoundSweep(db, x, w, k, txid);
    BoundTask(db, x, w, k, txid, chain, at);
    BoundCands(db, w, k, txid);
    SweepAskKept(db, x, db', w1);
    if order.Some? { FairKept(db, x, db', w.now, order.value, w.cs[k].amount); }
    hide BindTx, SweepAsk, SweepOk, Grows, ShortKept, Fair, CanTake, FindTx, Books, StraysTo;
    assert TaskAsk(db', x, w1.(task := Reading(row, w.cs[k].amount, txid)));
    SameCopies(db', x, w1, w1.(task := Reading(row, w.cs[k].amount, txid)));
  }

  lemma BindAsksStep(s: Wallet, x: set<Id>, p: nat, k: nat, txid: Txid, at: int, chain: Amounts)
    requires FullInv(s, x, chain) && p in s.sweeps && k < |s.sweeps[p].cs| && CanTake(s.sweeps[p].cs[k]) && s.sweeps[p].task.Idle?
    requires at > s.sweeps[p].cs[k].createdAt ==> StraysTo(s.db.payments, s.sweeps[p].cs[k], txid) <= x
    ensures FullInv(Bind(s, p, k, txid, at, chain), x, chain)
  {
    var w, s' := s.sweeps[p], Bind(s, p, k, txid, at, chain);
    BindStep(s, p, k, txid, at, chain);
    BindTables(s, x, p, k, txid, at, chain);
    assert SweepOk(s.db, w) && SweepAsk(s.db, x, w) && Books(s.db, chain);
    if s' != s {
      BoundSweepAsk(s.db, x, s'.db, w, k, txid, chain, at);
      SweepsAskKept(s, x, s'.db, chain);
      hide BindTx, SweepAsk, AskInv, Inv, Grows, ShortKept, CanTake, FindTx, StraysTo;
    }
  }

  /** Nothing is lost by allowing more orders to have been strayed to. */
  lemma MoreStrayed(s: Wallet, x: set<Id>, x': set<Id>, chain: Amounts)
    requires FullInv(s, x, chain) && x <= x'
    ensures FullInv(s, x', chain)
  {
    forall i: Id | i < |s.db.payments| ensures AskRow(s.db, x', i) {
      assert AskRow(s.db, x, i);
    }
    forall o: Id | o < |s.db.orders| ensures AskOrder(s.db, x', o) {
      assert AskOrder(s.db, x, o);
    }
    forall p | p in s.sweeps ensures SweepAsk(s.db, x', s.sweeps[p]) {
      MoreStrayedSweep(s.db, x, x', s.sweeps[p]);
    }
  }

  lemma MoreStrayedSweep(db: Db, x: set<Id>, x': set<Id>, w: Sweep)
    requires SweepAsk(db, x, w) && x <= x'
    ensures SweepAsk(db, x', w)
  {
    forall k: nat | k < |w.cs| ensures CandAsk(db, x', w.cs[k]) {
      assert CandAsk(db, x, w.cs[k]);
    }
    forall o: Id | o < |db.orders| ensures OldestFair(db, x', w, o) {
      assert OldestFair(db, x, w, o);
    }
    forall t | t in w.recorded ensures SeenAsk(db, x', w.recorded[t]) && (!w.task.Loading? ==> KnownFair(db, x', w, w.recorded[t])) {
      assert SeenAsk(db, x, w.recorded[t]);
      if !w.task.Loading? { assert KnownFair(db, x, w, w.recorded[t]); }
    }
  }

  lemma KnownAsks(s: Wallet, x: set<Id>, p: nat, txid: Txid, chain: Amounts)
    requires FullInv(s, x, chain) && p in s.sweeps && s.sweeps[p].task.Idle?
    requires txid in s.sweeps[p].recorded && s.sweeps[p].recorded[txid].row.status.Confirming?
    ensures var w := s.sweeps[p];
            FullInv(Does(s, p, Settling(w.recorded[txid], ExpectedFor(w.recorded[txid], w.cs), txid)), x, chain)
  {
    var w := s.sweeps[p];
    var seen := w.recorded[txid];
    var w' := w.(task := Settling(seen, ExpectedFor(seen, w.cs), txid));
    KnownKeeps(s, p, txid, ExpectedFor(seen, w.cs), chain);
    assert SweepAsk(s.db, x, w) && SeenAsk(s.db, x, seen) && KnownFair(s.db, x, w, seen);
    if seen.row.order.Some? { assert OldestFair(s.db, x, w, seen.row.order.value); }
    assert TaskAsk(s.db, x, w');
    SameCopies(s.db, x, w, w');
    hide AskInv, Inv, SweepAsk;
  }

  lemma FlagAsks(s: Wallet, x: set<Id>, p: nat, txid: Txid, chain: Amounts)
    requires FullInv(s, x, chain) && p in s.sweeps
    ensures var w := s.sweeps[p];
            FullInv(s.(db := s.db.(flagged := s.db.flagged + {txid}), sweeps := s.sweeps[p := w.(flagged := w.flagged + {txid})]), x, chain)
  {
    var w, flagged := s.sweeps[p], s.db.(flagged := s.db.flagged + {txid});
    var w' := w.(flagged := w.flagged + {txid});
    FlagKeeps(s, p, txid, chain);
    ShortKeptSelf(s.db, x, flagged);
    GrowsSelf(s.db, flagged);
    assert SweepAsk(s.db, x, w) && SweepOk(s.db, w);
    SweepsAskKept(s, x, flagged, chain);
    assert TaskAsk(flagged, x, w) == TaskAsk(flagged, x, w');
    SameCopies(flagged, x, w, w');
    hide AskInv, Inv, SweepAsk;
  }

  lemma TakeAsks(s: Wallet, x: set<Id>, p: nat, txid: Txid, at: int, chain: Amounts)
    requires FullInv(s, x, chain) && p in s.sweeps && Strays(s, Take(p, txid, at), chain) <= x
    ensures FullInv(TakeUp(s, p, txid, at, chain), x, chain)
  {
    var w, m := s.sweeps[p], MatchTransfer(txid, chain(txid), s.sweeps[p].cs);
    hide FullInv, MatchTransfer, ExpectedFor, Bind, FindTx, StraysTo;
    if !w.task.Idle? || txid !in w.listed || txid in w.flagged {
    } else if txid in w.recorded {
      if w.recorded[txid].row.status.Confirming? { KnownAsks(s, x, p, txid, chain); }
    } else if m.Unmatched? {
      FlagAsks(s, x, p, txid, chain);
    } else if m.Exact? || m.ByTag? {
      assert at > w.cs[m.at].createdAt ==> AboutToBind(s, p, m.at, txid, at, chain);
      BindAsksStep(s, x, p, m.at, txid, at, chain);
    }
  }

  lemma BeginAsks(s: Wallet, x: set<Id>, p: nat, now: int, listed: set<Txid>, chain: Amounts)
    requires FullInv(s, x, chain)
    ensures FullInv(Apply(s, Begin(p, now, listed), chain), x, chain)
  {
    BeginKeeps(s, p, now, listed, chain);
    var recorded := Recorded(s.db, listed);
    forall t | t in recorded ensures SeenAsk(s.db, x, recorded[t]) {
      var i := FindTx(s.db.payments, t).value;
      assert AskRow(s.db, x, i) && RowOk(s.db.payments[i], |s.db.orders|, chain);
    }
    var w := Sweep(now, listed, recorded, listed * s.db.flagged, [], Loading);
    hide AskInv, Inv, SeenAsk;
    assert SweepAsk(s.db, x, w);
    hide SweepAsk;
  }

  lemma LoadedSweep(db: Db, x: set<Id>, w: Sweep, chain: Amounts)
    requires AskInv(db, x) && Books(db, chain) && SweepAsk(db, x, w) && SweepOk(db, w)
    ensures SweepAsk(db, x, w.(cs := TagProtocol.LoadCandidates(db.payments, db.orders, w.now), task := Idle))
  {
    var w' := w.(cs := TagProtocol.LoadCandidates(db.payments, db.orders, w.now), task := Idle);
    LoadedCandidates(db, x, chain, w.now);
    forall o: Id | o < |db.orders| ensures OldestFair(db, x, w', o) {
      LoadedOldest(db, x, w', o);
    }
    forall t | t in w'.recorded ensures KnownFair(db, x, w', w'.recorded[t]) {
      LoadedKnown(db, x, chain, w', w'.recorded[t], t);
    }
    hide AskInv, Books, CandAsk, SeenAsk, OldestFair, KnownFair, TagProtocol.LoadCandidates;
  }

  lemma LoadAsks(s: Wallet, x: set<Id>, p: nat, chain: Amounts)
    requires FullInv(s, x, chain)
    ensures FullInv(Apply(s, Load(p), chain), x, chain)
  {
    LoadKeeps(s, p, chain);
    if p in s.sweeps && s.sweeps[p].task.Loading? {
      assert SweepAsk(s.db, x, s.sweeps[p]) && SweepOk(s.db, s.sweeps[p]) && Books(s.db, chain);
      LoadedSweep(s.db, x, s.sweeps[p], chain);
      hide AskInv, Inv, SweepAsk, TagProtocol.LoadCandidates;
    }
  }

  lemma StepAsks(s: Wallet, x: set<Id>, e: Settlement.Event, chain: Amounts)
    requires FullInv(s, x, chain) && Strays(s, e, chain) <= x
    ensures FullInv(Apply(s, e, chain), x, chain)
  {
    StepKeeps(s, e, chain);
    assert SweepsAsk(s, x) && Books(s.db, chain) && Inv(s, chain);
    match e {
      case Others(db') =>
        if Rely(s.db, db') {
          RelyAsks(s.db, x, db', chain);
          SweepsAskKept(s, x, db', chain);
        }
      case Issue(cents, tag, o, user, now) =>
        if Apply(s, e, chain) != s {
          IssueAsks(s.db, x, chain, cents, tag, o, user, now);
          SweepsAskKept(s, x, Apply(s, e, chain).db, chain);
        }
      case Expire(now) =>
        ExpireAsks(s.db, x, chain, now);
        SweepsAskKept(s, x, Apply(s, e, chain).db, chain);
      case Begin(p, now, listed) => BeginAsks(s, x, p, now, listed, chain);
      case Load(p) => LoadAsks(s, x, p, chain);
      case Take(p, txid, at) => if p in s.sweeps { TakeAsks(s, x, p, txid, at, chain); }
      case Go(p, clock) => if p in s.sweeps { ContinueAsks(s, x, p, clock, chain); }
      case Crash(p) =>
    }
  }

  /** Any step keeps what was asked, for the orders nobody has strayed to. */
  lemma AnyStepAsks(s: Wallet, x: set<Id>, e: Settlement.Event, chain: Amounts)
    requires FullInv(s, x, chain)
    ensures FullInv(Apply(s, e, chain), x + Strays(s, e, chain), chain)
  {
    hide FullInv, Apply, Strays;
    MoreStrayed(s, x, x + Strays(s, e, chain), chain);
    StepAsks(s, x + Strays(s, e, chain), e, chain);
  }

  lemma {:induction false} RunAsks(s: Wallet, x: set<Id>, events: seq<Settlement.Event>, chain: Amounts)
    requires FullInv(s, x, chain)
    ensures FullInv(Run(s, events, chain), x + Strayed(s, events, chain), chain)
    decreases events
  {
    hide FullInv, Apply, Strays;
    if events == [] {
      assert x + {} == x;
    } else {
      var strays := Strays(s, events[0], chain);
      AnyStepAsks(s, x, events[0], chain);
      RunAsks(Apply(s, events[0], chain), x + strays, events[1..], chain);
      assert x + strays + Strayed(Apply(s, events[0], chain), events[1..], chain) == x + Strayed(s, events, chain);
    }
  }

  // ---------------------------------------------------------------- the promise, for every run

  /** In every run an order nobody strayed to is not sold short: if it was bought in USDT, then by one
      settled transfer, for an amount that was asked on one of its own invoices, and what came in less
      what the buyer's balance was given (plus what was taken back from it) is that amount, to less than
      a cent. A recovered row of a sweep that died is no exception. */
  lemma NotSoldShort(events: seq<Settlement.Event>, chain: Amounts, o: Id)
    requires o < |Run(Empty(), events, chain).db.orders| && Run(Empty(), events, chain).db.orders[o].tronAsk.Some?
    requires o !in Strayed(Empty(), events, chain)
    ensures var db := Run(Empty(), events, chain).db;
            var ask := db.orders[o].tronAsk.value;
            && Asked(db.payments, o, ask)
            && exists p: Id :: Buys(db.payments, p, db.orders[o], o)
                 && 0 <= chain(db.payments[p].txHash.value) - CENTS_TO_USDT6 * PaymentTotal(db.ledger.rows, p) - ask < CENTS_TO_USDT6
                 && forall q: Id | Buys(db.payments, q, db.orders[o], o) :: q == p
  {
    EmptyKeeps(chain);
    RunAsks(Empty(), {}, events, chain);
    var db := Run(Empty(), events, chain).db;
    assert AskOrder(db, Strayed(Empty(), events, chain), o) && SoldOk(db.payments, db.orders[o], o);
    var p: Id :| Buys(db.payments, p, db.orders[o], o);
    assert RowOk(db.payments[p], |db.orders|, chain) && Balanced(db.payments, db.orders, db.ledger.rows, p);
  }

  // ---------------------------------------------------------------- where the guard is missing

  /** The sweep `p` is about to fall back, with its candidate at `k`, on row `v`, which a parallel sweep has
      bound to the open order `o` and has not settled. */
  predicate FallsBack(s: Wallet, p: nat, k: nat, v: Id, o: Id, txid: Txid, at: int, chain: Amounts) {
    && AboutToBind(s, p, k, txid, at, chain)
    && s.sweeps[p].cs[k].txHash.Some? && FindTx(s.db.payments, txid) == Some(v)
    && s.db.payments[v].status.Confirming? && s.db.payments[v].order == Some(o)
    && o < |s.db.orders| && !TagProtocol.OrderClosed(Some(s.db.orders[o]), s.sweeps[p].now)
  }

  /** A transfer of `received` on row `v` buys order `o` at `ask`: alone, or with the earlier short credits,
      which are still on the balance. */
  predicate Affords(db: Db, v: Id, o: Id, ask: int, received: nat)
    requires v < |db.payments|
  {
    received >= ask
    || (received + PriorUnderpaidCents(db, o) * CENTS_TO_USDT6 >= ask
        && LedgerBook.BalanceOf(db.ledger.rows, db.payments[v].user) >= CeilCents(ask - received))
  }

  /** What the shop keeps of the transfer on row `v`. */
  function Kept(db: Db, v: Id, received: nat): int {
    received - CENTS_TO_USDT6 * PaymentTotal(db.ledger.rows, v)
  }

  /** A call about a row whose transfer is not settled is answered by booking it, if the balance allows. */
  lemma BooksOrLacks(db: Db, chain: Amounts, c: LedgerBook.Call, p: Id)
    requires Books(db, chain) && p < |db.payments| && db.payments[p].provider.Tron? && db.payments[p].status.Confirming?
    requires PaymentOfKey(c.entry.key) == Some(p) && c.entry.amountCents > 0
    ensures LedgerBook.Booked(db.ledger, c)
            == if LedgerBook.BalanceOf(db.ledger.rows, c.entry.user)
                  + (if c.Credit? then c.entry.amountCents else 0 - c.entry.amountCents) < 0
               then Err(InsufficientBalance) else Ok(LedgerBook.Post(db.ledger, c).ledger)
  {
    assert !Earned(db.payments, PaymentOfKey(c.entry.key));
  }

  /** A surplus or a short payment of an unsettled transfer is always booked. */
  lemma CreditSucceeds(db: Db, chain: Amounts, seen: Seen, cents: nat, key: Key)
    requires Books(db, chain) && seen.id < |db.payments| && db.payments[seen.id].provider.Tron?
    requires db.payments[seen.id].status.Confirming? && LedgerBook.NeverNegative(db.ledger.rows) && PaymentOfKey(key) == Some(seen.id)
    ensures CreditDust(db.ledger, seen, cents, key).Ok?
  {
    if cents > 0 {
      BooksOrLacks(db, chain, LedgerBook.Credit(TronEntry(seen, cents, LedgerType.TopUp, key)), seen.id);
      assert db.ledger.rows[..|db.ledger.rows|] == db.ledger.rows;
      assert LedgerBook.BalanceOf(db.ledger.rows[..|db.ledger.rows|], seen.row.user) >= 0;
    }
  }

  predicate RowsGrow(payments: seq<Payment>, payments': seq<Payment>) {
    |payments'| == |payments| && forall i: Id | i < |payments| :: PaymentGrows(payments[i], payments'[i])
  }

  /** The tables after row `v` has bought order `o` at `ask`. */
  predicate BoughtAt(db: Db, db': Db, v: Id, o: Id, ask: int, received: nat) {
    && |db'.orders| == |db.orders| && o < |db.orders| && RowsGrow(db.payments, db'.payments)
    && db'.orders[o].tronAsk == Some(ask)
    && Kept(db', v, received) == ask + (received - ask) % CENTS_TO_USDT6
  }

  /** A bound, unsettled transfer for an order that is still open. */
  ghost predicate Bound(db: Db, chain: Amounts, v: Id, o: Id, txid: Txid) {
    && Books(db, chain) && LedgerBook.NeverNegative(db.ledger.rows)
    && v < |db.payments| && Carries(db.payments[v], txid) && db.payments[v].status.Confirming? && db.payments[v].order == Some(o)
    && o < |db.orders| && db.orders[o].status.Pending?
  }

  lemma KeptAfter(db: Db, db': Db, chain: Amounts, v: Id, cents: int, ask: int)
    requires Books(db, chain) && Settles(db, db', v, cents, Some(ask)) && db.payments[v].txHash.Some? && db.payments[v].provider.Tron?
    ensures var received := chain(db.payments[v].txHash.value);
            Kept(db', v, received) == ask + (received - ask) % CENTS_TO_USDT6
  {
    assert RowOk(db.payments[v], |db.orders|, chain);
    NothingYet(db.payments, db.ledger, v);
    TotalAfter(db.ledger, db'.ledger, v, cents, v);
  }

  lemma PaysAt(db: Db, chain: Amounts, v: Id, o: Id, expected: int, txid: Txid, clock: int)
    requires Bound(db, chain, v, o, txid) && chain(txid) >= expected
    ensures var tx := OrderPaidTx(db, See(db, v), expected, chain(txid), txid, clock);
            tx.Ok? && tx.value.Some? && BoughtAt(db, tx.value.value, v, o, expected, chain(txid))
  {
    var seen, received := See(db, v), chain(txid);
    SeeOk(db, chain, v, txid);
    CreditSucceeds(db, chain, seen, UsdCents(received - expected), OverpaidOf(v));
    PaidSettles(db, chain, seen, expected, txid, clock);
    var tx := OrderPaidTx(db, seen, expected, received, txid, clock);
    assert tx.Ok? && tx.value.Some?;
    hide Books, CreditDust, LedgerBook.NeverNegative, OrderPaidTx;
    KeptAfter(db, tx.value.value, chain, v, UsdCents(received - expected), expected);
  }

  /** The branch of the earlier short credits. */
  lemma CompletesAt(db: Db, chain: Amounts, v: Id, o: Id, expected: int, txid: Txid, clock: int)
    requires Bound(db, chain, v, o, txid) && chain(txid) < expected
    ensures var tx := OrderCompletedTx(db, See(db, v), expected, chain(txid), txid, clock);
            if LedgerBook.BalanceOf(db.ledger.rows, db.payments[v].user) < CeilCents(expected - chain(txid))
            then tx == Err(InsufficientBalance)
            else tx.Ok? && tx.value.Some? && BoughtAt(db, tx.value.value, v, o, expected, chain(txid))
  {
    hide Books, LedgerBook.NeverNegative;
    var seen, received := See(db, v), chain(txid);
    var needed: int := CeilCents(expected - received);
    SeeOk(db, chain, v, txid);
    BooksOrLacks(db, chain, LedgerBook.Debit(TronEntry(seen, needed, LedgerType.Purchase, ReclaimOf(v))), v);
    CompletedSettles(db, chain, seen, expected, txid, clock);
    var tx := OrderCompletedTx(db, seen, expected, received, txid, clock);
    assert LedgerBook.BalanceOf(db.ledger.rows, db.payments[v].user) < needed ==> tx == Err(InsufficientBalance);
    assert LedgerBook.BalanceOf(db.ledger.rows, db.payments[v].user) >= needed ==> tx.Ok? && tx.value.Some?;
    hide Books, LedgerBook.NeverNegative, LedgerBook.Post, OrderCompletedTx;
    if tx.Ok? {
      KeptAfter(db, tx.value.value, chain, v, 0 - needed, expected);
    }
  }

  /** One more short payment. */
  lemma FallsShort(db: Db, chain: Amounts, v: Id, o: Id, expected: int, txid: Txid)
    requires Bound(db, chain, v, o, txid)
    ensures var tx := UnderpaidTx(db, See(db, v), expected, chain(txid));
            tx.Ok? && tx.value.orders == db.orders && RowsGrow(db.payments, tx.value.payments)
  {
    SeeOk(db, chain, v, txid);
    CreditSucceeds(db, chain, See(db, v), UsdCents(chain(txid)), UnderpaidOf(v));
    UnderpaidSettles(db, chain, See(db, v), expected, txid);
  }

  /** The settlement of row `v` at the ask `expected`, wherever that comes from: the order is sold for it
      exactly when the transfer affords it, and the shop then keeps the ask and the dust. */
  lemma SettlesAt(db: Db, chain: Amounts, v: Id, o: Id, expected: int, txid: Txid, now: int, clock: int)
    requires Bound(db, chain, v, o, txid) && !TagProtocol.OrderClosed(Some(db.orders[o]), now)
    ensures var tx := SettleTx(db, See(db, v), expected, chain(txid), txid, now, clock);
            && tx.Ok?
            && if Affords(db, v, o, expected, chain(txid)) then BoughtAt(db, tx.value, v, o, expected, chain(txid))
               else tx.value.orders == db.orders && RowsGrow(db.payments, tx.value.payments)
  {
    FallsShort(db, chain, v, o, expected, txid);
    if chain(txid) >= expected {
      PaysAt(db, chain, v, o, expected, txid, clock);
    } else {
      CompletesAt(db, chain, v, o, expected, txid, clock);
    }
    hide Books, LedgerBook.NeverNegative, TagProtocol.OrderClosed, OrderPaidTx, OrderCompletedTx, UnderpaidTx, BoughtAt, RowsGrow,
         PriorUnderpaidCents;
  }

  /** The sweep after it has bound its candidate to row `v`, and left alone until it is idle. */
  lemma FallbackSettles(s: Wallet, p: nat, k: nat, v: Id, o: Id, txid: Txid, at: int, clock: int, chain: Amounts)
    requires FallsBack(s, p, k, v, o, txid, at, chain)
    ensures var taken, c := Apply(s, Take(p, txid, at), chain), s.sweeps[p].cs[k];
            && p in taken.sweeps
            && Steps(taken, p, 5, clock, chain).db
               == Committed(s.db, SettleTx(s.db, See(s.db, v), c.amount, chain(txid), txid, s.sweeps[p].now, clock))
  {
    var w, c, seen := s.sweeps[p], s.sweeps[p].cs[k], See(s.db, v);
    var bound := w.(cs := w.cs[k := c.(txHash := Some(txid))], task := Reading(v, c.amount, txid));
    var read := bound.(recorded := w.recorded[txid := seen], task := Settling(seen, c.amount, txid));
    FallbackBinds(s, p, k, v, o, txid, at, chain);
    hide MatchTransfer, FindTx, TagProtocol.OrderClosed, SettleTx, FallsBack;
    var taken := s.(sweeps := s.sweeps[p := bound]);
    assert Continue(taken, p, clock, chain) == s.(sweeps := s.sweeps[p := read]) by {
      assert s.sweeps[p := bound][p := read] == s.sweeps[p := read];
    }
    var settling := s.(sweeps := s.sweeps[p := read]);
    assert Does(settling, p, Settling(seen, c.amount, txid)) == settling by {
      assert s.sweeps[p := read][p := read] == s.sweeps[p := read];
    }
    StepsAreSettle(settling, p, 4, seen, c.amount, txid, clock, chain);
  }

  lemma FallbackBinds(s: Wallet, p: nat, k: nat, v: Id, o: Id, txid: Txid, at: int, chain: Amounts)
    requires FallsBack(s, p, k, v, o, txid, at, chain)
    ensures var w, c := s.sweeps[p], s.sweeps[p].cs[k];
            && v < |s.db.payments| && s.db.payments[v].status.Confirming?
            && Apply(s, Take(p, txid, at), chain)
               == s.(sweeps := s.sweeps[p := w.(cs := w.cs[k := c.(txHash := Some(txid))], task := Reading(v, c.amount, txid))])
  {
    hide MatchTransfer, FindTx, TagProtocol.OrderClosed;
  }

  lemma SameAsks(payments: seq<Payment>, payments': seq<Payment>, o: Id, a: int)
    requires RowsGrow(payments, payments')
    ensures Asked(payments', o, a) <==> Asked(payments, o, a)
  {
    if Asked(payments, o, a) {
      var i: Id :| i < |payments| && Asks(payments[i], o, a);
      assert PaymentGrows(payments[i], payments'[i]) && Asks(payments'[i], o, a);
    }
    if Asked(payments', o, a) {
      var i: Id :| i < |payments'| && Asks(payments'[i], o, a);
      assert PaymentGrows(payments[i], payments'[i]) && Asks(payments[i], o, a);
    }
  }

  /** What falling back does to an order for which `a` was asked and nothing else: it is sold exactly when
      the transfer affords the candidate's amount, and then the shop keeps less than `a` if and only if
      that amount and the dust fall short of it. A candidate of the same order, which is the comparison
      `bindTransfer` leaves out, was asked for `a`, so with it no order is sold short. */
  lemma FallbackSellsShortIff(s: Wallet, x: set<Id>, p: nat, k: nat, v: Id, o: Id, a: int, txid: Txid, at: int, clock: int, chain: Amounts)
    requires FullInv(s, x, chain) && o !in x && FallsBack(s, p, k, v, o, txid, at, chain)
    requires LedgerBook.NeverNegative(s.db.ledger.rows) && forall y :: Asked(s.db.payments, o, y) <==> y == a
    ensures var taken, c, received := Apply(s, Take(p, txid, at), chain), s.sweeps[p].cs[k], chain(txid);
            && p in taken.sweeps
            && var end := Steps(taken, p, 5, clock, chain).db;
               && |end.orders| == |s.db.orders| && (forall y :: Asked(end.payments, o, y) <==> y == a)
               && end.orders[o].tronAsk == (if Affords(s.db, v, o, c.amount, received) then Some(c.amount) else None)
               && (end.orders[o].tronAsk.Some? ==>
                     (Kept(end, v, received) < a <==> c.amount + (received - c.amount) % CENTS_TO_USDT6 < a))
               && (c.row.order == Some(o) ==> c.amount == a)
               && (Strays(s, Take(p, txid, at), chain) == if c.row.order == Some(o) then {} else {o})
  {
    FallbackFinds(s, x, p, k, v, o, txid, at, chain);
    FallbackStrays(s, p, k, v, o, txid, at, chain);
    FallbackEnds(s, p, k, v, o, txid, at, clock, chain);
    var end := Steps(Apply(s, Take(p, txid, at), chain), p, 5, clock, chain).db;
    hide *;
    forall y ensures Asked(end.payments, o, y) <==> y == a {
      SameAsks(s.db.payments, end.payments, o, y);
    }
  }

  lemma FallbackEnds(s: Wallet, p: nat, k: nat, v: Id, o: Id, txid: Txid, at: int, clock: int, chain: Amounts)
    requires FallsBack(s, p, k, v, o, txid, at, chain) && Bound(s.db, chain, v, o, txid)
    ensures var taken, c := Apply(s, Take(p, txid, at), chain), s.sweeps[p].cs[k];
            && p in taken.sweeps
            && var end := Steps(taken, p, 5, clock, chain).db;
               && RowsGrow(s.db.payments, end.payments) && |end.orders| == |s.db.orders|
               && end.orders[o].tronAsk == (if Affords(s.db, v, o, c.amount, chain(txid)) then Some(c.amount) else s.db.orders[o].tronAsk)
               && (Affords(s.db, v, o, c.amount, chain(txid)) ==>
                     Kept(end, v, chain(txid)) == c.amount + (chain(txid) - c.amount) % CENTS_TO_USDT6)
  {
    hide Apply, Steps, SettleTx, Bound, MatchTransfer, FindTx, TagProtocol.OrderClosed, Affords, Kept, RowsGrow, See;
    FallbackSettles(s, p, k, v, o, txid, at, clock, chain);
    SettledAt(s.db, chain, v, o, s.sweeps[p].cs[k].amount, txid, s.sweeps[p].now, clock);
  }

  lemma SettledAt(db: Db, chain: Amounts, v: Id, o: Id, expected: int, txid: Txid, now: int, clock: int)
    requires Bound(db, chain, v, o, txid) && !TagProtocol.OrderClosed(Some(db.orders[o]), now)
    ensures var end := Committed(db, SettleTx(db, See(db, v), expected, chain(txid), txid, now, clock));
            && RowsGrow(db.payments, end.payments) && |end.orders| == |db.orders|
            && end.orders[o].tronAsk == (if Affords(db, v, o, expected, chain(txid)) then Some(expected) else db.orders[o].tronAsk)
            && (Affords(db, v, o, expected, chain(txid)) ==>
                  Kept(end, v, chain(txid)) == expected + (chain(txid) - expected) % CENTS_TO_USDT6)
  {
    SettlesAt(db, chain, v, o, expected, txid, now, clock);
    hide SettleTx, Bound, RowsGrow, Affords, Kept, TagProtocol.OrderClosed;
  }

  lemma FallbackFinds(s: Wallet, x: set<Id>, p: nat, k: nat, v: Id, o: Id, txid: Txid, at: int, chain: Amounts)
    requires FullInv(s, x, chain) && o !in x && FallsBack(s, p, k, v, o, txid, at, chain) && LedgerBook.NeverNegative(s.db.ledger.rows)
    ensures Bound(s.db, chain, v, o, txid) && s.db.orders[o].tronAsk.None?
    ensures var c := s.sweeps[p].cs[k];
            c.row.order == Some(o) ==> Asked(s.db.payments, o, c.amount)
  {
    hide AskInv, MatchTransfer, LedgerBook.NeverNegative;
    var c := s.sweeps[p].cs[k];
    assert SweepAsk(s.db, x, s.sweeps[p]) && CandAsk(s.db, x, c) && CanTake(c);
    assert FindTx(s.db.payments, txid) == Some(v) && Books(s.db, chain) && SoldOk(s.db.payments, s.db.orders[o], o);
  }

  lemma FallbackStrays(s: Wallet, p: nat, k: nat, v: Id, o: Id, txid: Txid, at: int, chain: Amounts)
    requires FallsBack(s, p, k, v, o, txid, at, chain)
    ensures Strays(s, Take(p, txid, at), chain) == if s.sweeps[p].cs[k].row.order == Some(o) then {} else {o}
  {
    hide MatchTransfer, TagProtocol.OrderClosed;
  }
}
