/** A run of the wallet, from the empty shop, that sells an order short: what SoldInFull.FallbackSellsShortIff
    says can happen does happen. */
module ShortSale {
  import opened Schema
  import opened Money
  import opened TronMatch
  import TagProtocol
  import LedgerBook
  import opened ChainScan
  import opened Settlement
  import opened SoldInFull

  const OTHER_ASK := 1_000_100
  const ASK := 2_000_100

  function TwoTransfers(): Amounts {
    (txid: Txid) => if txid == 1 then 100 else OTHER_ASK
  }

  /** An order asked at 1.0001 USDT, and 50 minutes later one asked at 2.0001 with the same tag. */
  const FIRST := Order(0, 0, 1, 100, OrderStatus.Pending, None, None, ClientKey("first"), 0, None, Some(1_200_000), None, None)
  const SECOND := Order(1, 0, 1, 200, OrderStatus.Pending, None, None, ClientKey("second"), 3_000_001, None, Some(4_200_001), None, None)

  const INVOICE := Payment(Provider.Tron, Some(0), 0, OTHER_ASK, None, PaymentStatus.Pending, false, 0, 0, Some(OTHER_ASK))
  const BOUND := INVOICE.(txHash := Some(1), status := PaymentStatus.Confirming, received := 100)
  const SHORT := BOUND.(status := Underpaid)
  const INVOICE_2 := Payment(Provider.Tron, Some(1), 1, ASK, None, PaymentStatus.Pending, false, 3_000_001, 0, Some(ASK))
  const BOUND_2 := INVOICE_2.(txHash := Some(2), status := PaymentStatus.Confirming, received := OTHER_ASK)

  function Tables(orders: seq<Order>, payments: seq<Payment>): Db {
    Db([], orders, payments, EMPTY_LEDGER, [], [], [], {}, [])
  }

  /** Sweep 1, which has loaded the first invoice when it was UNDERPAID and within its hold. */
  function LongSweep(): Sweep {
    Sweep(2_999_000, {2}, map[], {}, [Candidate(0, OTHER_ASK, Underpaid, Some(1), 0, SHORT, Some(FIRST))], Idle)
  }

  /** A short payment arrives for the first invoice. */
  function ShortPayment(): seq<Settlement.Event> {
    [Others(Tables([FIRST], [])), Settlement.Issue(100, 1, Some(0), 0, 0), Begin(0, 1, {1}), Load(0), Take(0, 1, 1)]
    + Goes(0, 1) + [Crash(0)]
  }

  function Goes(p: nat, clock: int): seq<Settlement.Event> {
    seq(5, _ => Go(p, clock))
  }

  /** Sweep 1 begins a second before the first invoice's hold is over. Then the second invoice gets the
      tag, sweep 2 binds transfer 2 to it and dies, and sweep 1 comes to the same transfer. */
  function Overlap(): seq<Settlement.Event> {
    [Begin(1, 2_999_000, {2}), Load(1), Others(Tables([FIRST, SECOND], [SHORT])), Settlement.Issue(200, 1, Some(1), 1, 3_000_001),
     Begin(2, 3_000_002, {2}), Load(2), Take(2, 2, 3_000_003), Crash(2)]
  }

  function ShortSale(): seq<Settlement.Event> {
    ShortPayment() + Overlap() + LastSweep()
  }

  lemma {:induction false} RunConcat(s: Wallet, a: seq<Settlement.Event>, b: seq<Settlement.Event>, chain: Amounts)
    ensures Run(s, a + b, chain) == Run(Run(s, a, chain), b, chain)
    ensures Strayed(s, a + b, chain) == Strayed(s, a, chain) + Strayed(Run(s, a, chain), b, chain)
    decreases a
  {
    hide Apply, Strays;
    if a == [] {
      assert a + b == b;
    } else {
      assert (a + b)[1..] == a[1..] + b;
      RunConcat(Apply(s, a[0], chain), a[1..], b, chain);
    }
  }

  /** One more event at the end of a run. */
  lemma RunOne(s: Wallet, a: seq<Settlement.Event>, e: Settlement.Event, chain: Amounts)
    ensures Run(s, a + [e], chain) == Apply(Run(s, a, chain), e, chain)
    ensures Strayed(s, a + [e], chain) == Strayed(s, a, chain) + Strays(Run(s, a, chain), e, chain)
  {
    hide Apply, Strays;
    RunConcat(s, a, [e], chain);
    assert [e][1..] == [];
  }

  lemma {:induction false} GoesAreSteps(s: Wallet, p: nat, n: nat, clock: int, chain: Amounts)
    requires p in s.sweeps
    ensures var goes := seq(n, _ => Go(p, clock));
            Run(s, goes, chain) == Steps(s, p, n, clock, chain) && Strayed(s, goes, chain) == {}
    decreases n
  {
    var goes := seq(n, _ => Go(p, clock));
    if n > 0 {
      assert goes[1..] == seq(n - 1, _ => Go(p, clock));
      assert Apply(s, goes[0], chain) == Continue(s, p, clock, chain);
      GoesAreSteps(Continue(s, p, clock, chain), p, n - 1, clock, chain);
      hide Apply, Continue;
    }
  }

  // the short payment

  lemma FirstIssued()
    ensures var s := Wallet(Tables([FIRST], []), map[]);
            && Apply(Empty(), Others(Tables([FIRST], [])), TwoTransfers()) == s
            && Apply(s, Settlement.Issue(100, 1, Some(0), 0, 0), TwoTransfers()) == Wallet(Tables([FIRST], [INVOICE]), map[])
  {
  }

  lemma LoadsOne(p: Payment, orders: seq<Order>, now: int)
    ensures TagProtocol.LoadCandidates([p], orders, now)
            == if TagProtocol.Loadable(p, now) then [TagProtocol.ToCandidate(p, 0, orders, now)] else []
  {
    assert [p][..0] == [];
  }

  function FirstCandidate(): Candidate {
    Candidate(0, OTHER_ASK, PaymentStatus.Pending, None, 0, INVOICE, Some(FIRST))
  }

  lemma FirstLoaded()
    ensures var s := Wallet(Tables([FIRST], [INVOICE]), map[]);
            Apply(Apply(s, Begin(0, 1, {1}), TwoTransfers()), Load(0), TwoTransfers())
            == s.(sweeps := map[0 := Sweep(1, {1}, map[], {}, [FirstCandidate()], Idle)])
  {
    hide Apply, TagProtocol.LoadCandidates;
    assert [INVOICE][..0] == [] && FindTx([INVOICE], 1) == None;
    BeginsAndLoads(Tables([FIRST], [INVOICE]), map[], 0, 1, {1});
    LoadsOne(INVOICE, [FIRST], 1);
    assert TagProtocol.Loadable(INVOICE, 1) && TagProtocol.ToCandidate(INVOICE, 0, [FIRST], 1) == FirstCandidate();
  }

  /** A sweep that begins where none of its transfers is known or flagged, and reads its candidates. */
  lemma BeginsAndLoads(db: Db, sweeps: map<nat, Sweep>, p: nat, now: int, listed: set<Txid>)
    requires listed * db.flagged == {} && forall t | t in listed :: FindTx(db.payments, t).None?
    ensures var cs := TagProtocol.LoadCandidates(db.payments, db.orders, now);
            Apply(Apply(Wallet(db, sweeps), Begin(p, now, listed), TwoTransfers()), Load(p), TwoTransfers())
            == Wallet(db, sweeps[p := Sweep(now, listed, map[], {}, cs, Idle)])
  {
    assert Recorded(db, listed) == map[];
    var begun := Sweep(now, listed, map[], {}, [], Loading);
    assert Apply(Wallet(db, sweeps), Begin(p, now, listed), TwoTransfers()) == Wallet(db, sweeps[p := begun]);
    var loaded := Sweep(now, listed, map[], {}, TagProtocol.LoadCandidates(db.payments, db.orders, now), Idle);
    assert sweeps[p := begun][p := loaded] == sweeps[p := loaded];
    hide TagProtocol.LoadCandidates, Recorded;
  }

  lemma FirstBinds()
    ensures BindTx([INVOICE], FirstCandidate(), 1, 100, 1) == Ok(ChainScan.Bound([BOUND], 0))
  {
    assert [INVOICE][..0] == [] && FindTx([INVOICE], 1) == None;
    assert [INVOICE][0 := BOUND] == [BOUND];
  }

  lemma FirstTaken()
    ensures var s := Wallet(Tables([FIRST], [INVOICE]), map[0 := Sweep(1, {1}, map[], {}, [FirstCandidate()], Idle)]);
            && Apply(s, Take(0, 1, 1), TwoTransfers())
               == Wallet(Tables([FIRST], [BOUND]),
                         map[0 := Sweep(1, {1}, map[], {}, [FirstCandidate().(txHash := Some(1))], Reading(0, OTHER_ASK, 1))])
            && Strays(s, Take(0, 1, 1), TwoTransfers()) == {}
  {
    var w := Sweep(1, {1}, map[], {}, [FirstCandidate()], Idle);
    assert TagOf(100) == 1 && TagOf(OTHER_ASK) == 1;
    ByTagIff(1, 100, [FirstCandidate()], 0);
    hide MatchTransfer, TagOf, BindTx;
    assert MatchTransfer(1, 100, w.cs) == ByTag(0);
    FirstBinds();
    var s := Wallet(Tables([FIRST], [INVOICE]), map[0 := w]);
    assert Apply(s, Take(0, 1, 1), TwoTransfers()) == Bind(s, 0, 0, 1, 1, TwoTransfers());
    assert w.cs[0 := FirstCandidate().(txHash := Some(1))] == [FirstCandidate().(txHash := Some(1))];
  }

  lemma FirstSettled()
    ensures var s := Wallet(Tables([FIRST], [BOUND]),
                            map[0 := Sweep(1, {1}, map[], {}, [FirstCandidate().(txHash := Some(1))], Reading(0, OTHER_ASK, 1))]);
            var end := Steps(s, 0, 5, 1, TwoTransfers());
            end.db == Tables([FIRST], [SHORT]) && end.sweeps - {0} == map[]
  {
    var w := Sweep(1, {1}, map[], {}, [FirstCandidate().(txHash := Some(1))], Reading(0, OTHER_ASK, 1));
    var db, seen := Tables([FIRST], [BOUND]), Seen(0, BOUND, Some(FIRST));
    var read := w.(recorded := map[1 := seen], task := Settling(seen, OTHER_ASK, 1));
    assert Continue(Wallet(db, map[0 := w]), 0, 1, TwoTransfers()) == Wallet(db, map[0 := read]);
    assert Does(Wallet(db, map[0 := read]), 0, Settling(seen, OTHER_ASK, 1)) == Wallet(db, map[0 := read]);
    StepsAreSettle(Wallet(db, map[0 := read]), 0, 4, seen, OTHER_ASK, 1, 1, TwoTransfers());
    assert PriorUnderpaidCents(db, 0) == 0 && UsdCents(100) == 0;
    assert [BOUND][0 := SHORT] == [SHORT];
    assert ClaimPayment([BOUND], 0, Underpaid, OTHER_ASK) == Ok([SHORT]);
    assert UnderpaidTx(db, seen, OTHER_ASK, 100) == Ok(Tables([FIRST], [SHORT]));
    assert SettleTx(db, seen, OTHER_ASK, 100, 1, 1, 1) == Ok(Tables([FIRST], [SHORT]));
    hide Continue, SettleTx;
  }

  lemma EmptyAsks(chain: Amounts)
    ensures FullInv(Empty(), {}, chain)
  {
    EmptyKeeps(chain);
  }

  lemma NoTake(s: Wallet, e: Settlement.Event, chain: Amounts)
    requires !e.Take?
    ensures Strays(s, e, chain) == {}
  {
  }

  /** The short payment, event by event, up to its binding... */
  lemma ShortPaymentBinds(events: seq<Settlement.Event>)
    requires events == [Others(Tables([FIRST], [])), Settlement.Issue(100, 1, Some(0), 0, 0), Begin(0, 1, {1}), Load(0), Take(0, 1, 1)]
    ensures Run(Empty(), events, TwoTransfers())
            == Wallet(Tables([FIRST], [BOUND]),
                      map[0 := Sweep(1, {1}, map[], {}, [FirstCandidate().(txHash := Some(1))], Reading(0, OTHER_ASK, 1))])
    ensures Strayed(Empty(), events, TwoTransfers()) == {}
  {
    hide Apply, Strays;
    var chain := TwoTransfers();
    var a := [Others(Tables([FIRST], []))];
    var b := a + [Settlement.Issue(100, 1, Some(0), 0, 0)];
    var c := b + [Begin(0, 1, {1})];
    var d := c + [Load(0)];
    assert [] + a == a && events == d + [Take(0, 1, 1)];
    RunOne(Empty(), [], Others(Tables([FIRST], [])), chain);
    RunOne(Empty(), a, Settlement.Issue(100, 1, Some(0), 0, 0), chain);
    RunOne(Empty(), b, Begin(0, 1, {1}), chain);
    RunOne(Empty(), c, Load(0), chain);
    RunOne(Empty(), d, Take(0, 1, 1), chain);
    FirstIssued();
    FirstLoaded();
    FirstTaken();
    NoTake(Run(Empty(), [], chain), Others(Tables([FIRST], [])), chain);
    NoTake(Run(Empty(), a, chain), Settlement.Issue(100, 1, Some(0), 0, 0), chain);
    NoTake(Run(Empty(), b, chain), Begin(0, 1, {1}), chain);
    NoTake(Run(Empty(), c, chain), Load(0), chain);
  }

  /** ... and to the end: one invoice, UNDERPAID. */
  lemma ShortPaymentRun()
    ensures var s := Run(Empty(), ShortPayment(), TwoTransfers());
            s == Wallet(Tables([FIRST], [SHORT]), map[]) && Strayed(Empty(), ShortPayment(), TwoTransfers()) == {}
  {
    hide Apply, Strays, Steps, Run, Strayed, Tables;
    var chain := TwoTransfers();
    var events := [Others(Tables([FIRST], [])), Settlement.Issue(100, 1, Some(0), 0, 0), Begin(0, 1, {1}), Load(0), Take(0, 1, 1)];
    ShortPaymentBinds(events);
    var bound := Run(Empty(), events, chain);
    RunConcat(Empty(), events, Goes(0, 1), chain);
    GoesAreSteps(bound, 0, 5, 1, chain);
    FirstSettled();
    var settled := Run(Empty(), events + Goes(0, 1), chain);
    RunOne(Empty(), events + Goes(0, 1), Crash(0), chain);
    NoTake(settled, Crash(0), chain);
    Crashes(settled, 0, chain);
    assert ShortPayment() == events + Goes(0, 1) + [Crash(0)];
  }

  lemma Crashes(s: Wallet, p: nat, chain: Amounts)
    ensures Apply(s, Crash(p), chain) == s.(sweeps := s.sweeps - {p})
  {
  }

  // the overlap

  lemma LongSweepLoads()
    ensures Apply(Apply(Wallet(Tables([FIRST], [SHORT]), map[]), Begin(1, 2_999_000, {2}), TwoTransfers()), Load(1), TwoTransfers())
            == Wallet(Tables([FIRST], [SHORT]), map[1 := LongSweep()])
  {
    hide Apply, TagProtocol.LoadCandidates;
    assert [SHORT][..0] == [] && FindTx([SHORT], 2) == None;
    BeginsAndLoads(Tables([FIRST], [SHORT]), map[], 1, 2_999_000, {2});
    LoadsOne(SHORT, [FIRST], 2_999_000);
  }

  lemma SecondIssued()
    ensures var s := Wallet(Tables([FIRST], [SHORT]), map[1 := LongSweep()]);
            var ordered := s.(db := Tables([FIRST, SECOND], [SHORT]));
            && Apply(s, Others(Tables([FIRST, SECOND], [SHORT])), TwoTransfers()) == ordered
            && Apply(ordered, Settlement.Issue(200, 1, Some(1), 1, 3_000_001), TwoTransfers())
               == s.(db := Tables([FIRST, SECOND], [SHORT, INVOICE_2]))
  {
    assert [SHORT] + [INVOICE_2] == [SHORT, INVOICE_2];
    hide LongSweep;
  }

  function SecondCandidate(): Candidate {
    Candidate(1, ASK, PaymentStatus.Pending, None, 3_000_001, INVOICE_2, Some(SECOND))
  }

  lemma NotFound(row: Payment, other: Payment, txid: Txid)
    requires row.txHash != Some(txid)
    ensures FindTx([other, row], txid) == FindTx([other], txid)
    ensures other.txHash != Some(txid) ==> FindTx([other], txid) == None
  {
    assert [other, row][..1] == [other] && [other][..0] == [];
  }

  lemma SecondCandidates()
    ensures TagProtocol.LoadCandidates([SHORT, INVOICE_2], [FIRST, SECOND], 3_000_002) == [SecondCandidate()]
  {
    assert [SHORT, INVOICE_2][..1] == [SHORT];
    LoadsOne(SHORT, [FIRST, SECOND], 3_000_002);
  }

  lemma SecondLoaded()
    ensures var s := Wallet(Tables([FIRST, SECOND], [SHORT, INVOICE_2]), map[1 := LongSweep()]);
            Apply(Apply(s, Begin(2, 3_000_002, {2}), TwoTransfers()), Load(2), TwoTransfers())
            == s.(sweeps := s.sweeps[2 := Sweep(3_000_002, {2}, map[], {}, [SecondCandidate()], Idle)])
  {
    hide Apply, TagProtocol.LoadCandidates, LongSweep, FindTx;
    NotFound(INVOICE_2, SHORT, 2);
    SecondCandidates();
    BeginsAndLoads(Tables([FIRST, SECOND], [SHORT, INVOICE_2]), map[1 := LongSweep()], 2, 3_000_002, {2});
  }

  lemma SecondTaken()
    ensures var sweeps := map[1 := LongSweep()];
            var s := Wallet(Tables([FIRST, SECOND], [SHORT, INVOICE_2]),
                            sweeps[2 := Sweep(3_000_002, {2}, map[], {}, [SecondCandidate()], Idle)]);
            var taken := Apply(s, Take(2, 2, 3_000_003), TwoTransfers());
            && taken.db == Tables([FIRST, SECOND], [SHORT, BOUND_2]) && taken.sweeps - {2} == sweeps
            && Strays(s, Take(2, 2, 3_000_003), TwoTransfers()) == {}
  {
    var sweeps, w := map[1 := LongSweep()], Sweep(3_000_002, {2}, map[], {}, [SecondCandidate()], Idle);
    assert TagOf(ASK) == 1 && TagOf(OTHER_ASK) == 1;
    ByTagIff(2, OTHER_ASK, [SecondCandidate()], 0);
    hide MatchTransfer, TagOf, LongSweep;
    assert MatchTransfer(2, OTHER_ASK, w.cs) == ByTag(0);
    NotFound(INVOICE_2, SHORT, 2);
    assert [SHORT, INVOICE_2][1 := BOUND_2] == [SHORT, BOUND_2];
    assert BindTx([SHORT, INVOICE_2], SecondCandidate(), 2, OTHER_ASK, 3_000_003) == Ok(ChainScan.Bound([SHORT, BOUND_2], 1));
    var s := Wallet(Tables([FIRST, SECOND], [SHORT, INVOICE_2]), sweeps[2 := w]);
    assert Apply(s, Take(2, 2, 3_000_003), TwoTransfers()) == Bind(s, 2, 0, 2, 3_000_003, TwoTransfers());
    hide BindTx;
  }

  /** Two invoices with one tag, transfer 2 bound to the second and not settled, sweep 1 under way. */
  function Overlapped(): Wallet {
    Wallet(Tables([FIRST, SECOND], [SHORT, BOUND_2]), map[1 := LongSweep()])
  }

  lemma OverlapRun()
    ensures var s := Wallet(Tables([FIRST], [SHORT]), map[]);
            Run(s, Overlap(), TwoTransfers()) == Overlapped() && Strayed(s, Overlap(), TwoTransfers()) == {}
  {
    hide Apply, Strays, LongSweep;
    var chain, s := TwoTransfers(), Wallet(Tables([FIRST], [SHORT]), map[]);
    var a := [Begin(1, 2_999_000, {2})];
    var b := a + [Load(1)];
    var c := b + [Others(Tables([FIRST, SECOND], [SHORT]))];
    var d := c + [Settlement.Issue(200, 1, Some(1), 1, 3_000_001)];
    var e := d + [Begin(2, 3_000_002, {2})];
    var f := e + [Load(2)];
    var g := f + [Take(2, 2, 3_000_003)];
    assert [] + a == a;
    RunOne(s, [], Begin(1, 2_999_000, {2}), chain);
    RunOne(s, a, Load(1), chain);
    RunOne(s, b, Others(Tables([FIRST, SECOND], [SHORT])), chain);
    RunOne(s, c, Settlement.Issue(200, 1, Some(1), 1, 3_000_001), chain);
    RunOne(s, d, Begin(2, 3_000_002, {2}), chain);
    RunOne(s, e, Load(2), chain);
    RunOne(s, f, Take(2, 2, 3_000_003), chain);
    RunOne(s, g, Crash(2), chain);
    LongSweepLoads();
    SecondIssued();
    SecondLoaded();
    SecondTaken();
    Crashes(Run(s, g, chain), 2, chain);
    NoTake(Run(s, [], chain), Begin(1, 2_999_000, {2}), chain);
    NoTake(Run(s, a, chain), Load(1), chain);
    NoTake(Run(s, b, chain), Others(Tables([FIRST, SECOND], [SHORT])), chain);
    NoTake(Run(s, c, chain), Settlement.Issue(200, 1, Some(1), 1, 3_000_001), chain);
    NoTake(Run(s, d, chain), Begin(2, 3_000_002, {2}), chain);
    NoTake(Run(s, e, chain), Load(2), chain);
    NoTake(Run(s, g, chain), Crash(2), chain);
    assert Overlap() == g + [Crash(2)];
  }

  // the short sale

  lemma OverlappedFallsBack()
    ensures FallsBack(Overlapped(), 1, 0, 1, 1, 2, 3_000_003, TwoTransfers())
    ensures Overlapped().sweeps[1].cs[0].amount == OTHER_ASK && Overlapped().sweeps[1].cs[0].row.order == Some(0)
    ensures Affords(Overlapped().db, 1, 1, OTHER_ASK, OTHER_ASK) && LedgerBook.NeverNegative(Overlapped().db.ledger.rows)
    ensures forall a :: Asked(Overlapped().db.payments, 1, a) <==> a == ASK
  {
    var cs := LongSweep().cs;
    assert cs[..0] == [];
    assert FindTx([SHORT, BOUND_2], 2) == Some(1);
    forall a ensures Asked([SHORT, BOUND_2], 1, a) <==> a == ASK {
      assert Asks([SHORT, BOUND_2][1], 1, ASK);
    }
  }

  /** What is left of the run: sweep 1 comes to transfer 2. */
  function LastSweep(): seq<Settlement.Event> {
    [Take(1, 2, 3_000_003)] + Goes(1, 3_000_004)
  }

  lemma LastSweepSteps(s: Wallet, chain: Amounts)
    requires 1 in Apply(s, Take(1, 2, 3_000_003), chain).sweeps
    ensures Run(s, LastSweep(), chain) == Steps(Apply(s, Take(1, 2, 3_000_003), chain), 1, 5, 3_000_004, chain)
    ensures Strayed(s, LastSweep(), chain) == Strays(s, Take(1, 2, 3_000_003), chain)
  {
    hide Apply, Strays, Steps;
    assert [] + [Take(1, 2, 3_000_003)] == [Take(1, 2, 3_000_003)];
    RunOne(s, [], Take(1, 2, 3_000_003), chain);
    RunConcat(s, [Take(1, 2, 3_000_003)], Goes(1, 3_000_004), chain);
    GoesAreSteps(Apply(s, Take(1, 2, 3_000_003), chain), 1, 5, 3_000_004, chain);
  }

  lemma LastSweepRun()
    requires FullInv(Overlapped(), {}, TwoTransfers())
    ensures var end := Run(Overlapped(), LastSweep(), TwoTransfers()).db;
            && |end.orders| == 2 && end.orders[1].tronAsk == Some(OTHER_ASK)
            && (forall a :: Asked(end.payments, 1, a) <==> a == ASK)
            && Kept(end, 1, OTHER_ASK) < ASK
            && Strayed(Overlapped(), LastSweep(), TwoTransfers()) == {1}
  {
    var s, chain := Overlapped(), TwoTransfers();
    OverlappedFallsBack();
    assert |s.db.orders| == 2 && chain(2) == OTHER_ASK;
    assert OTHER_ASK + (OTHER_ASK - OTHER_ASK) % CENTS_TO_USDT6 < ASK;
    hide Apply, Strays, Overlapped, FallsBack, FullInv, Steps, Asked, Affords, Kept, LedgerBook.NeverNegative;
    FallbackSellsShortIff(s, {}, 1, 0, 1, 1, ASK, 2, 3_000_003, 3_000_004, chain);
    LastSweepSteps(s, chain);
  }

  /** A run from the empty shop that sells an order for which 2.0001 USDT was asked, and nothing else, for
      1.0001: its last sweep fell back on a row of another order than its candidate's. */
  lemma FallbackSellsShort()
    ensures var end := Run(Empty(), ShortSale(), TwoTransfers()).db;
            && |end.orders| == 2 && end.orders[1].tronAsk == Some(OTHER_ASK)
            && (forall a :: Asked(end.payments, 1, a) <==> a == ASK)
            && Kept(end, 1, OTHER_ASK) < ASK
            && Strayed(Empty(), ShortSale(), TwoTransfers()) == {1}
  {
    hide Apply, Strays, LongSweep, FullInv, Overlapped, LastSweep, Overlap, ShortPayment, Asked, Kept;
    EmptyAsks(TwoTransfers());
    var chain := TwoTransfers();
    var before := ShortPayment() + Overlap();
    ShortPaymentRun();
    OverlapRun();
    RunConcat(Empty(), ShortPayment(), Overlap(), chain);
    RunAsks(Empty(), {}, before, chain);
    assert Strayed(Empty(), before, chain) == {} && FullInv(Overlapped(), {}, chain);
    LastSweepRun();
    RunConcat(Empty(), before, LastSweep(), chain);
  }
}
