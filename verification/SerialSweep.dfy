/** `processTransfers` of chain-scan.worker.ts as one uninterrupted run: a loop over the listed
    transfers, oldest first, with the copies it keeps up to date as it goes. */
module SerialSweep {
  import opened Schema
  import opened Sums
  import LedgerBook
  import opened Money
  import opened TronMatch
  import opened TagProtocol
  import opened ChainScan
  import opened Orders
  import Settlement

  // ---------------------------------------------------------------- oldest first

  function Insert(t: Transfer, sorted: seq<Transfer>): seq<Transfer> {
    if sorted == [] then [t]
    else
      var n := |sorted| - 1;
      if sorted[n].timestamp <= t.timestamp then sorted + [t] else Insert(t, sorted[..n]) + [sorted[n]]
  }

  /** The stable sort by block timestamp. */
  function OldestFirst(transfers: seq<Transfer>): seq<Transfer> {
    if transfers == [] then []
    else Insert(transfers[|transfers| - 1], OldestFirst(transfers[..|transfers| - 1]))
  }

  lemma {:induction false} InsertPermutes(t: Transfer, sorted: seq<Transfer>)
    ensures multiset(Insert(t, sorted)) == multiset(sorted) + multiset{t}
  {
    if sorted != [] {
      var n := |sorted| - 1;
      assert sorted == sorted[..n] + [sorted[n]];
      InsertPermutes(t, sorted[..n]);
    }
  }

  lemma {:induction false} SortPermutes(transfers: seq<Transfer>)
    ensures multiset(OldestFirst(transfers)) == multiset(transfers)
  {
    if transfers != [] {
      var n := |transfers| - 1;
      assert transfers == transfers[..n] + [transfers[n]];
      SortPermutes(transfers[..n]);
      InsertPermutes(transfers[n], OldestFirst(transfers[..n]));
    }
  }

  predicate InOrder(ts: seq<Transfer>) {
    forall i: nat, j: nat | i < j < |ts| :: ts[i].timestamp <= ts[j].timestamp
  }

  predicate UpTo(ts: seq<Transfer>, bound: int) {
    forall i: nat | i < |ts| :: ts[i].timestamp <= bound
  }

  lemma {:induction false} InsertUpTo(t: Transfer, sorted: seq<Transfer>, bound: int)
    requires UpTo(sorted, bound) && t.timestamp <= bound
    ensures UpTo(Insert(t, sorted), bound)
  {
    if sorted != [] {
      InsertUpTo(t, sorted[..|sorted| - 1], bound);
    }
  }

  lemma {:induction false} InsertInOrder(t: Transfer, sorted: seq<Transfer>)
    requires InOrder(sorted)
    ensures InOrder(Insert(t, sorted))
  {
    if sorted != [] && sorted[|sorted| - 1].timestamp > t.timestamp {
      var n := |sorted| - 1;
      InsertInOrder(t, sorted[..n]);
      InsertUpTo(t, sorted[..n], sorted[n].timestamp);
    }
  }

  lemma {:induction false} SortsInOrder(transfers: seq<Transfer>)
    ensures InOrder(OldestFirst(transfers))
  {
    if transfers != [] {
      SortsInOrder(transfers[..|transfers| - 1]);
      InsertInOrder(transfers[|transfers| - 1], OldestFirst(transfers[..|transfers| - 1]));
    }
  }

  // ---------------------------------------------------------------- the loop as a function

  /** The tables and the sweep's own maps. */
  datatype Sheet = Sheet(db: Db, recorded: map<Txid, Seen>, flagged: set<Txid>, cs: seq<Candidate>)

  function Txids(transfers: seq<Transfer>): set<Txid> {
    set i: nat | i < |transfers| :: transfers[i].txid
  }

  function Opening(db: Db, transfers: seq<Transfer>, now: int): Sheet {
    Sheet(db, Settlement.Recorded(db, Txids(transfers)), db.flagged * Txids(transfers),
          LoadCandidates(db.payments, db.orders, now))
  }

  /** A settlement that fails is logged and skipped. */
  function Tried(st: Sheet, seen: Seen, expected: int, t: Transfer, now: int, clock: int): Sheet {
    var tx := SettleTx(st.db, seen, expected, t.amount, t.txid, now, clock);
    if tx.Ok? then st.(db := tx.value) else st
  }

  /** The tables and the maps once the transfer is bound to the candidate at `k`. */
  function Noted(st: Sheet, k: nat, t: Transfer, clock: int): Sheet
    requires k < |st.cs|
  {
    var tx := BindTx(st.db.payments, st.cs[k], t.txid, t.amount, clock);
    if tx.Err? || tx.value.id >= |tx.value.payments| then st
    else
      var db := st.db.(payments := tx.value.payments);
      var bound := See(db, tx.value.id);
      Sheet(db, st.recorded[t.txid := bound], st.flagged, st.cs[k := st.cs[k].(txHash := bound.row.txHash)])
  }

  function BindAndSettle(st: Sheet, k: nat, t: Transfer, now: int, clock: int): Sheet
    requires k < |st.cs| && t.txid !in st.recorded
  {
    var st' := Noted(st, k, t, clock);
    if t.txid in st'.recorded && st'.recorded[t.txid].row.status.Confirming?
    then Tried(st', st'.recorded[t.txid], st.cs[k].amount, t, now, clock)
    else st'
  }

  function Handle(st: Sheet, t: Transfer, now: int, clock: int): Sheet {
    if t.txid in st.flagged then st
    else if t.txid in st.recorded then
      var known := st.recorded[t.txid];
      if known.row.status.Confirming? then Tried(st, known, ExpectedFor(known, st.cs), t, now, clock) else st
    else
      match MatchTransfer(t.txid, t.amount, st.cs)
      case Unmatched(_) => st.(db := st.db.(flagged := st.db.flagged + {t.txid}), flagged := st.flagged + {t.txid})
      case AlreadyRecorded(_) => st
      case Exact(k) => BindAndSettle(st, k, t, now, clock)
      case ByTag(k) => BindAndSettle(st, k, t, now, clock)
  }

  function HandleAll(st: Sheet, ts: seq<Transfer>, now: int, clock: int): Sheet {
    if ts == [] then st else Handle(HandleAll(st, ts[..|ts| - 1], now, clock), ts[|ts| - 1], now, clock)
  }

  // ---------------------------------------------------------------- the loop, in place

  method BindThenSettle(db: Database, recorded: map<Txid, Seen>, flagged: set<Txid>, candidates: seq<Candidate>,
                        k: nat, t: Transfer, now: int, clock: int)
    returns (recordedByTx: map<Txid, Seen>, cs: seq<Candidate>)
    requires k < |candidates| && t.txid !in recorded
    modifies db
    ensures Sheet(db.View(), recordedByTx, flagged, cs)
         == BindAndSettle(Sheet(old(db.View()), recorded, flagged, candidates), k, t, now, clock)
  {
    recordedByTx, cs := recorded, candidates;
    var invoice := candidates[k];
    var id := BindTransfer(db, invoice, t.txid, t.amount, clock);
    if id.Err? || id.value >= |db.payments| {
      return;
    }
    var bound := See(db.View(), id.value);
    cs := candidates[k := invoice.(txHash := bound.row.txHash)];
    recordedByTx := recorded[t.txid := bound];
    if bound.row.status.Confirming? {
      var _ := Settle(db, bound, invoice.amount, t.amount, t.txid, now, clock);
    }
  }

  method ProcessTransfers(db: Database, transfers: seq<Transfer>, now: int, clock: int)
    modifies db
    ensures db.View() == HandleAll(Opening(old(db.View()), transfers, now), OldestFirst(transfers), now, clock).db
  {
    ghost var opening := Opening(db.View(), transfers, now);
    var recordedByTx: map<Txid, Seen> := Settlement.Recorded(db.View(), Txids(transfers));
    var flaggedTx := db.flagged * Txids(transfers);
    var candidates := LoadCandidates(db.payments, db.orders, now);
    var sorted := OldestFirst(transfers);
    var n := 0;
    while n < |sorted|
      invariant 0 <= n <= |sorted|
      invariant Sheet(db.View(), recordedByTx, flaggedTx, candidates) == HandleAll(opening, sorted[..n], now, clock)
    {
      var transfer := sorted[n];
      assert sorted[..n + 1][..n] == sorted[..n];
      n := n + 1;
      if transfer.txid in flaggedTx {
        continue;
      }
      if transfer.txid in recordedByTx {
        var known := recordedByTx[transfer.txid];
        if known.row.status.Confirming? {
          var _ := Settle(db, known, ExpectedFor(known, candidates), transfer.amount, transfer.txid, now, clock);
        }
        continue;
      }
      var m := MatchTransfer(transfer.txid, transfer.amount, candidates);
      if m.Unmatched? {
        db.flagged := db.flagged + {transfer.txid};
        flaggedTx := flaggedTx + {transfer.txid};
      } else if !m.AlreadyRecorded? {
        recordedByTx, candidates := BindThenSettle(db, recordedByTx, flaggedTx, candidates, m.at, transfer, now, clock);
      }
    }
    assert sorted[..n] == sorted;
  }

  /** One sweep: the invoices nobody paid are expired, then the transfers are processed. */
  method ScanOnce(db: Database, transfers: seq<Transfer>, now: int, clock: int)
    modifies db
    ensures var begin := old(db.View()).(payments := ExpireStaleTx(old(db.payments), now));
            db.View() == HandleAll(Opening(begin, transfers, now), OldestFirst(transfers), now, clock).db
  {
    ExpireStaleInvoices(db, now);
    if |transfers| > 0 {
      ProcessTransfers(db, transfers, now, clock);
    }
  }

  // ---------------------------------------------------------------- a settlement without rivals succeeds

  type Amounts = Settlement.Amounts

  /** The transfer of `seen` is settled and the books are kept. */
  ghost predicate Done(db: Db, db': Db, seen: Seen, chain: Amounts) {
    && Settlement.Books(db', chain) && Settlement.Moves(db, db') && LedgerBook.NeverNegative(db'.ledger.rows)
    && seen.id < |db'.payments| && Settlement.Settled(db'.payments[seen.id])
    && db.flagged <= db'.flagged
    && OthersWait(db.payments, db'.payments, seen.id)
  }

  /** No other row is bound or leaves CONFIRMING. */
  predicate OthersWait(a: seq<Payment>, b: seq<Payment>, p: Id) {
    && |a| == |b|
    && (forall i: Id | i < |a| :: b[i].txHash == a[i].txHash)
    && (forall i: Id | i < |a| && i != p && a[i].status.Confirming? :: b[i].status.Confirming?)
  }

  /** A bound row no other sweep is settling. */
  ghost predicate Alone(db: Db, seen: Seen, txid: Txid, chain: Amounts) {
    && Settlement.Books(db, chain) && LedgerBook.NeverNegative(db.ledger.rows)
    && Settlement.SeenOk(db, seen, txid) && db.payments[seen.id].status.Confirming?
  }

  lemma CallKeepsSign(db: Db, seen: Seen, txid: Txid, chain: Amounts, c: LedgerBook.Call)
    requires Alone(db, seen, txid, chain) && c.entry.amountCents > 0 && Settlement.PaymentOfKey(c.entry.key) == Some(seen.id)
    ensures var b := LedgerBook.Booked(db.ledger, c);
            && (b.Ok? ==> LedgerBook.NeverNegative(b.value.rows))
            && (c.Credit? ==> b.Ok?)
            && (b.Err? ==> b.error.InsufficientBalance?)
  {
    assert !Settlement.Earned(db.payments, Settlement.PaymentOfKey(c.entry.key));
    assert c.entry.key !in db.ledger.records;
    assert db.ledger.rows[..|db.ledger.rows|] == db.ledger.rows;
    assert LedgerBook.BalanceOf(db.ledger.rows[..|db.ledger.rows|], c.entry.user) >= 0;
    LedgerBook.PostNeverNegative(db.ledger, c);
  }

  lemma LateCommits(db: Db, seen: Seen, txid: Txid, chain: Amounts)
    requires Alone(db, seen, txid, chain)
    ensures var late := LateTx(db, seen, chain(txid));
            && late.Ok? && LedgerBook.NeverNegative(late.value.ledger.rows)
            && |late.value.payments| == |db.payments| && late.value.payments[seen.id].provider.Tron?
            && late.value.payments[seen.id].status.Paid? && late.value.flagged == db.flagged
            && OthersWait(db.payments, late.value.payments, seen.id)
  {
    var cents := UsdCents(chain(txid));
    if cents > 0 {
      CallKeepsSign(db, seen, txid, chain, LedgerBook.Credit(TronEntry(seen, cents, LedgerType.TopUp, LateOf(seen.id))));
    }
    hide Settlement.Books, LedgerBook.NeverNegative;
  }

  lemma LateWorks(db: Db, seen: Seen, txid: Txid, chain: Amounts)
    requires Alone(db, seen, txid, chain)
    ensures var tx := SettleLateTx(db, seen, chain(txid), txid);
            tx.Ok? && Done(db, tx.value, seen, chain)
  {
    LateCommits(db, seen, txid, chain);
    var late := LateTx(db, seen, chain(txid));
    Settlement.CreditKeeps(db, chain, seen, 0, txid);
    assert Settlement.Settled(late.value.payments[seen.id]);
    hide LateTx, Settlement.SeenOk, Settlement.Books, Settlement.Moves, LedgerBook.NeverNegative, OthersWait, Alone;
    Settlement.FlagStep(late.value, seen.row.order, txid, chain);
    FlagAfter(db, late.value, FlagDoublePaid(late.value, seen.row.order, txid));
  }

  lemma FlagAfter(a: Db, b: Db, c: Db)
    requires Settlement.Moves(a, b) && c == b.(flagged := c.flagged)
    ensures Settlement.Moves(a, c)
  {
  }

  lemma TopupWorks(db: Db, seen: Seen, txid: Txid, chain: Amounts)
    requires Alone(db, seen, txid, chain)
    ensures var tx := TopupTx(db, seen, chain(txid));
            tx.Ok? && Done(db, tx.value, seen, chain)
  {
    var cents := UsdCents(chain(txid));
    if cents > 0 {
      CallKeepsSign(db, seen, txid, chain,
                    LedgerBook.Credit(LedgerBook.Entry(seen.row.user, cents, LedgerType.TopUp, None, Some(seen.id), TopupOf(seen.id))));
    }
    var tx := TopupTx(db, seen, chain(txid));
    assert tx.Ok? && LedgerBook.NeverNegative(tx.value.ledger.rows) && Settlement.Settled(tx.value.payments[seen.id]);
    Settlement.CreditKeeps(db, chain, seen, 0, txid);
  }

  lemma UnderpaidWorks(db: Db, seen: Seen, expected: int, txid: Txid, chain: Amounts)
    requires Alone(db, seen, txid, chain)
    ensures var tx := UnderpaidTx(db, seen, expected, chain(txid));
            tx.Ok? && Done(db, tx.value, seen, chain)
  {
    var cents := UsdCents(chain(txid));
    if cents > 0 {
      CallKeepsSign(db, seen, txid, chain, LedgerBook.Credit(TronEntry(seen, cents, LedgerType.TopUp, UnderpaidOf(seen.id))));
    }
    var tx := UnderpaidTx(db, seen, expected, chain(txid));
    assert tx.Ok? && LedgerBook.NeverNegative(tx.value.ledger.rows) && Settlement.Settled(tx.value.payments[seen.id]);
    Settlement.CreditKeeps(db, chain, seen, expected, txid);
  }

  lemma PaidWorks(db: Db, seen: Seen, expected: int, txid: Txid, clock: int, chain: Amounts)
    requires Alone(db, seen, txid, chain) && chain(txid) >= expected
    ensures var tx := OrderPaidTx(db, seen, expected, chain(txid), txid, clock);
            tx.Ok? && (tx.value.Some? ==> Done(db, tx.value.value, seen, chain))
  {
    var cents := UsdCents(chain(txid) - expected);
    if cents > 0 {
      CallKeepsSign(db, seen, txid, chain, LedgerBook.Credit(TronEntry(seen, cents, LedgerType.TopUp, OverpaidOf(seen.id))));
    }
    Settlement.SaleKeeps(db, chain, seen, expected, txid, clock);
    hide Settlement.Books, Settlement.Moves;
  }

  lemma CompletedCommits(db: Db, seen: Seen, expected: int, txid: Txid, clock: int, chain: Amounts)
    requires Alone(db, seen, txid, chain) && chain(txid) < expected
    ensures var tx := OrderCompletedTx(db, seen, expected, chain(txid), txid, clock);
            && (tx.Err? ==> tx.error.InsufficientBalance?)
            && (tx.Ok? && tx.value.Some? ==>
                  var sold := tx.value.value;
                  && LedgerBook.NeverNegative(sold.ledger.rows) && sold.flagged == db.flagged
                  && OthersWait(db.payments, sold.payments, seen.id) && Settlement.Settled(sold.payments[seen.id]))
  {
    hide Settlement.Books, Settlement.RowOk;
    CallKeepsSign(db, seen, txid, chain,
                  LedgerBook.Debit(TronEntry(seen, CeilCents(expected - chain(txid)), LedgerType.Purchase, ReclaimOf(seen.id))));
    if seen.row.order.Some? {
      Settlement.ClosedRows(db.payments, seen.id, chain(txid));
    }
    hide LedgerBook.NeverNegative, CloseUnderpaid, Settlement.PaymentGrows, LedgerBook.Booked, CeilCents;
  }

  lemma CompletedWorks(db: Db, seen: Seen, expected: int, txid: Txid, clock: int, chain: Amounts)
    requires Alone(db, seen, txid, chain) && chain(txid) < expected
    ensures var tx := OrderCompletedTx(db, seen, expected, chain(txid), txid, clock);
            && (tx.Err? ==> tx.error.InsufficientBalance?)
            && (tx.Ok? && tx.value.Some? ==> Done(db, tx.value.value, seen, chain))
  {
    CompletedCommits(db, seen, expected, txid, clock, chain);
    Settlement.SaleKeeps(db, chain, seen, expected, txid, clock);
    hide Settlement.Books, Settlement.Moves, LedgerBook.NeverNegative, OrderCompletedTx, Settlement.SeenOk;
  }

  /** `settle` always ends in one of its outcomes. */
  lemma SettleWorks(db: Db, seen: Seen, expected: int, txid: Txid, now: int, clock: int, chain: Amounts)
    requires Alone(db, seen, txid, chain)
    ensures var tx := SettleTx(db, seen, expected, chain(txid), txid, now, clock);
            tx.Ok? && Done(db, tx.value, seen, chain)
  {
    hide Done, Alone, SettleLateTx, TopupTx, UnderpaidTx, OrderPaidTx, OrderCompletedTx, OrderClosed, PriorUnderpaidCents;
    if seen.row.order.None? || seen.order.None? {
      TopupWorks(db, seen, txid, chain);
    } else if OrderClosed(seen.order, now) {
      LateWorks(db, seen, txid, chain);
    } else if chain(txid) >= expected {
      PaidWorks(db, seen, expected, txid, clock, chain);
      LateWorks(db, seen, txid, chain);
    } else {
      ShortWorks(db, seen, expected, txid, now, clock, chain);
    }
  }

  lemma ShortWorks(db: Db, seen: Seen, expected: int, txid: Txid, now: int, clock: int, chain: Amounts)
    requires Alone(db, seen, txid, chain) && chain(txid) < expected
    requires seen.row.order.Some? && seen.order.Some? && !OrderClosed(seen.order, now)
    ensures var tx := SettleTx(db, seen, expected, chain(txid), txid, now, clock);
            tx.Ok? && Done(db, tx.value, seen, chain)
  {
    hide Done, Alone, SettleLateTx, TopupTx, UnderpaidTx, OrderPaidTx, OrderCompletedTx, OrderClosed, PriorUnderpaidCents;
    CompletedWorks(db, seen, expected, txid, clock, chain);
    LateWorks(db, seen, txid, chain);
    UnderpaidWorks(db, seen, expected, txid, chain);
    var tx := OrderCompletedTx(db, seen, expected, chain(txid), txid, clock);
    match tx {
      case Err(e) => assert tx == Err(InsufficientBalance);
      case Ok(None) =>
      case Ok(Some(sold)) =>
    }
  }

  // ---------------------------------------------------------------- nothing is left unaccounted

  /** On a payment that has left CONFIRMING, or flagged for an operator. */
  ghost predicate Handled(db: Db, txid: Txid) {
    txid in db.flagged || exists i: Id :: i < |db.payments| && SettledBy(db.payments[i], txid)
  }

  predicate SettledBy(p: Payment, txid: Txid) {
    Settlement.Carries(p, txid) && Settlement.Settled(p)
  }

  ghost predicate CandsAgree(st: Sheet) {
    && (forall k: nat | k < |st.cs| ::
          Settlement.CandOk(st.db, st.cs[k]) && (st.cs[k].txHash.None? <==> st.db.payments[st.cs[k].id].txHash.None?))
    && (forall k: nat, l: nat | k < l < |st.cs| :: st.cs[k].id != st.cs[l].id)
  }

  /** What the sweep has noted about a transfer it has yet to come to is still true. */
  ghost predicate NoteOk(st: Sheet, t: Txid) {
    if t in st.recorded then
      && Settlement.SeenOk(st.db, st.recorded[t], t)
      && var row := st.db.payments[st.recorded[t].id];
         if st.recorded[t].row.status.Confirming? then row.status.Confirming? else Settlement.Settled(row)
    else
      && (forall i: Id | i < |st.db.payments| :: !Settlement.Carries(st.db.payments[i], t))
      && (forall k: nat | k < |st.cs| :: st.cs[k].txHash != Some(t))
  }

  ghost predicate Agrees(st: Sheet, pending: set<Txid>, chain: Amounts) {
    && Settlement.Books(st.db, chain) && LedgerBook.NeverNegative(st.db.ledger.rows)
    && CandsAgree(st)
    && (forall t | t in pending :: NoteOk(st, t))
    && st.flagged <= st.db.flagged
  }

  lemma HandledKept(db: Db, db': Db, t: Txid)
    requires Settlement.Grows(db, db') && db.flagged <= db'.flagged && Handled(db, t)
    ensures Handled(db', t)
  {
    if t !in db.flagged {
      var i: Id :| i < |db.payments| && SettledBy(db.payments[i], t);
      assert Settlement.PaymentGrows(db.payments[i], db'.payments[i]);
      assert SettledBy(db'.payments[i], t);
    }
  }

  lemma NoteKept(st: Sheet, db': Db, seen: Seen, txid: Txid, t: Txid, chain: Amounts)
    requires Settlement.SeenOk(st.db, seen, txid) && Done(st.db, db', seen, chain) && NoteOk(st, t) && t != txid
    ensures NoteOk(st.(db := db'), t)
  {
    if t in st.recorded {
      Settlement.SeenKept(st.db, db', st.recorded[t], t);
      assert Settlement.PaymentGrows(st.db.payments[st.recorded[t].id], db'.payments[st.recorded[t].id]);
    } else {
      forall i: Id | i < |db'.payments| ensures !Settlement.Carries(db'.payments[i], t) {
        assert Settlement.PaymentGrows(st.db.payments[i], db'.payments[i]);
      }
    }
  }

  lemma CandsKept(st: Sheet, db': Db)
    requires CandsAgree(st) && Settlement.Grows(st.db, db') && |db'.payments| == |st.db.payments|
    requires forall i: Id | i < |db'.payments| :: db'.payments[i].txHash == st.db.payments[i].txHash
    ensures CandsAgree(st.(db := db'))
  {
    forall k: nat | k < |st.cs| ensures Settlement.CandOk(db', st.cs[k]) {
      assert Settlement.CandOk(st.db, st.cs[k]);
      assert Settlement.PaymentGrows(st.db.payments[st.cs[k].id], db'.payments[st.cs[k].id]);
    }
  }

  /** Settling one noted transfer. */
  lemma TriedAgrees(st: Sheet, seen: Seen, expected: int, t: Transfer, pending: set<Txid>, now: int, clock: int, chain: Amounts)
    requires Agrees(st, pending - {t.txid}, chain) && Alone(st.db, seen, t.txid, chain) && t.amount == chain(t.txid)
    ensures var st' := Tried(st, seen, expected, t, now, clock);
            && Agrees(st', pending - {t.txid}, chain) && Handled(st'.db, t.txid)
            && Settlement.Grows(st.db, st'.db) && st.db.flagged <= st'.db.flagged
            && st'.cs == st.cs && st'.recorded == st.recorded && st'.flagged == st.flagged
  {
    SettleWorks(st.db, seen, expected, t.txid, now, clock, chain);
    var st' := Tried(st, seen, expected, t, now, clock);
    hide SettleTx, Settlement.Books;
    CandsKept(st, st'.db);
    forall x | x in pending - {t.txid} ensures NoteOk(st', x) {
      NoteKept(st, st'.db, seen, t.txid, x, chain);
    }
    assert Settlement.PaymentGrows(st.db.payments[seen.id], st'.db.payments[seen.id]);
    assert SettledBy(st'.db.payments[seen.id], t.txid);
  }

  /** With no rival the transfer is always bound, to the candidate's row or to one of its own. */
  lemma BindWorks(st: Sheet, k: nat, t: Transfer, pending: set<Txid>, clock: int, chain: Amounts)
    requires Agrees(st, pending, chain) && t.txid in pending && t.txid !in st.recorded && t.amount == chain(t.txid)
    requires k < |st.cs| && CanTake(st.cs[k])
    ensures var tx := BindTx(st.db.payments, st.cs[k], t.txid, t.amount, clock);
            && tx.Ok? && tx.value.id < |tx.value.payments|
            && tx.value == (if st.cs[k].txHash.None?
                            then Bound(st.db.payments[st.cs[k].id := tx.value.payments[st.cs[k].id]], st.cs[k].id)
                            else Bound(st.db.payments + [FollowUp(st.cs[k], t.txid, t.amount, clock)], |st.db.payments|))
            && tx.value.payments[tx.value.id].txHash == Some(t.txid) && tx.value.payments[tx.value.id].status.Confirming?
  {
    assert NoteOk(st, t.txid);
    assert Settlement.CandOk(st.db, st.cs[k]);
  }

  lemma NotedBooks(st: Sheet, k: nat, t: Transfer, pending: set<Txid>, clock: int, chain: Amounts)
    requires Agrees(st, pending, chain) && t.txid in pending && t.txid !in st.recorded && t.amount == chain(t.txid)
    requires k < |st.cs| && CanTake(st.cs[k])
    ensures var st' := Noted(st, k, t, clock);
            && t.txid in st'.recorded && Alone(st'.db, st'.recorded[t.txid], t.txid, chain)
            && st'.recorded[t.txid].row.status.Confirming? && Settlement.Grows(st.db, st'.db) && st'.db.flagged == st.db.flagged
  {
    BindWorks(st, k, t, pending, clock, chain);
    assert Settlement.CandOk(st.db, st.cs[k]);
    Settlement.BindKeeps(st.db, chain, st.cs[k], t.txid, clock);
    var st' := Noted(st, k, t, clock);
    Settlement.SeeOk(st'.db, chain, st'.recorded[t.txid].id, t.txid);
  }

  lemma NotedCands(st: Sheet, k: nat, t: Transfer, pending: set<Txid>, clock: int, chain: Amounts)
    requires Agrees(st, pending, chain) && t.txid in pending && t.txid !in st.recorded && t.amount == chain(t.txid)
    requires k < |st.cs| && CanTake(st.cs[k])
    ensures CandsAgree(Noted(st, k, t, clock))
  {
    BindWorks(st, k, t, pending, clock, chain);
    NotedBooks(st, k, t, pending, clock, chain);
    var st' := Noted(st, k, t, clock);
    hide Settlement.Books, BindTx, Alone;
    forall l: nat | l < |st'.cs|
      ensures Settlement.CandOk(st'.db, st'.cs[l]) && (st'.cs[l].txHash.None? <==> st'.db.payments[st'.cs[l].id].txHash.None?)
    {
      assert Settlement.CandOk(st.db, st.cs[l]);
      assert Settlement.PaymentGrows(st.db.payments[st.cs[l].id], st'.db.payments[st.cs[l].id]);
    }
  }

  /** Binding one transfer leaves the row of another alone, and gives it no second one. */
  lemma BoundElsewhere(payments: seq<Payment>, c: Candidate, txid: Txid, received: nat, at: int, x: Txid)
    requires BindTx(payments, c, txid, received, at).Ok? && x != txid
    ensures var bound := BindTx(payments, c, txid, received, at).value.payments;
            && |payments| <= |bound|
            && (forall i: Id | i < |payments| && Settlement.Carries(payments[i], x) :: bound[i] == payments[i])
            && (forall i: Id | i < |bound| && Settlement.Carries(bound[i], x) :: i < |payments| && Settlement.Carries(payments[i], x))
  {
  }

  lemma NotedNotes(st: Sheet, k: nat, t: Transfer, pending: set<Txid>, clock: int, chain: Amounts, x: Txid)
    requires Agrees(st, pending, chain) && t.txid in pending && t.txid !in st.recorded && t.amount == chain(t.txid)
    requires k < |st.cs| && CanTake(st.cs[k]) && x in pending && x != t.txid
    ensures NoteOk(Noted(st, k, t, clock), x)
  {
    assert NoteOk(st, x);
    BindWorks(st, k, t, pending, clock, chain);
    NotedBooks(st, k, t, pending, clock, chain);
    BoundElsewhere(st.db.payments, st.cs[k], t.txid, t.amount, clock, x);
    hide BindTx, Alone, Agrees, Settlement.Grows;
    var st' := Noted(st, k, t, clock);
    if x in st.recorded {
      Settlement.SeenKept(st.db, st'.db, st.recorded[x], x);
    }
  }

  lemma BindAgrees(st: Sheet, k: nat, t: Transfer, pending: set<Txid>, now: int, clock: int, chain: Amounts)
    requires Agrees(st, pending, chain) && t.txid in pending && t.txid !in st.recorded && t.amount == chain(t.txid)
    requires k < |st.cs| && CanTake(st.cs[k])
    ensures var st' := BindAndSettle(st, k, t, now, clock);
            Agrees(st', pending - {t.txid}, chain) && Handled(st'.db, t.txid)
            && Settlement.Grows(st.db, st'.db) && st.db.flagged <= st'.db.flagged
  {
    BindWorks(st, k, t, pending, clock, chain);
    NotedBooks(st, k, t, pending, clock, chain);
    NotedCands(st, k, t, pending, clock, chain);
    var noted := Noted(st, k, t, clock);
    forall x | x in pending - {t.txid} ensures NoteOk(noted, x) {
      NotedNotes(st, k, t, pending, clock, chain, x);
    }
    assert noted.db.ledger == st.db.ledger;
    assert Agrees(noted, pending - {t.txid}, chain);
    TriedAgrees(noted, noted.recorded[t.txid], st.cs[k].amount, t, pending, now, clock, chain);
    hide Agrees, Handled, Settlement.Grows, Tried, Alone;
    Settlement.GrowsTransitive(st.db, noted.db, BindAndSettle(st, k, t, now, clock).db);
  }

  lemma FlagAgrees(st: Sheet, t: Transfer, pending: set<Txid>, chain: Amounts)
    requires Agrees(st, pending, chain)
    ensures var st' := st.(db := st.db.(flagged := st.db.flagged + {t.txid}), flagged := st.flagged + {t.txid});
            Agrees(st', pending - {t.txid}, chain) && Handled(st'.db, t.txid)
  {
    var st' := st.(db := st.db.(flagged := st.db.flagged + {t.txid}), flagged := st.flagged + {t.txid});
    forall x | x in pending - {t.txid} ensures NoteOk(st', x) {
      assert NoteOk(st, x);
    }
    assert CandsAgree(st');
    assert Settlement.Books(st'.db, chain);
    hide Settlement.Books, CandsAgree, NoteOk;
  }

  lemma HandleAgrees(st: Sheet, t: Transfer, pending: set<Txid>, now: int, clock: int, chain: Amounts)
    requires Agrees(st, pending, chain) && t.txid in pending && t.amount == chain(t.txid)
    ensures var st' := Handle(st, t, now, clock);
            Agrees(st', pending - {t.txid}, chain) && Handled(st'.db, t.txid)
            && Settlement.Grows(st.db, st'.db) && st.db.flagged <= st'.db.flagged
  {
    Settlement.GrowsSelf(st.db, st.db);
    Settlement.GrowsSelf(st.db, st.db.(flagged := st.db.flagged + {t.txid}));
    assert NoteOk(st, t.txid);
    if t.txid in st.flagged {
    } else if t.txid in st.recorded {
      var known := st.recorded[t.txid];
      if known.row.status.Confirming? {
        TriedAgrees(st, known, ExpectedFor(known, st.cs), t, pending, now, clock, chain);
      } else {
        assert SettledBy(st.db.payments[known.id], t.txid);
      }
    } else {
      var m := MatchTransfer(t.txid, t.amount, st.cs);
      NotRecorded(t.txid, t.amount, st.cs);
      hide MatchTransfer, NoteOk, Agrees, Handled, Settlement.Grows, BindAndSettle;
      if m.Unmatched? {
        FlagAgrees(st, t, pending, chain);
      } else if m.Exact? || m.ByTag? {
        BindAgrees(st, m.at, t, pending, now, clock, chain);
      }
    }
  }

  lemma NotRecorded(txid: Txid, amount: int, cs: seq<Candidate>)
    requires forall k: nat | k < |cs| :: cs[k].txHash != Some(txid)
    ensures !MatchTransfer(txid, amount, cs).AlreadyRecorded?
  {
  }

  predicate DistinctTxids(ts: seq<Transfer>) {
    forall i: nat, j: nat | i < j < |ts| :: ts[i].txid != ts[j].txid
  }

  lemma {:induction false} AllAgree(st: Sheet, ts: seq<Transfer>, pending: set<Txid>, now: int, clock: int, chain: Amounts)
    requires Agrees(st, pending, chain) && DistinctTxids(ts)
    requires forall i: nat | i < |ts| :: ts[i].txid in pending && ts[i].amount == chain(ts[i].txid)
    ensures var st' := HandleAll(st, ts, now, clock);
            && Agrees(st', pending - Txids(ts), chain)
            && Settlement.Grows(st.db, st'.db) && st.db.flagged <= st'.db.flagged
            && forall i: nat | i < |ts| :: Handled(st'.db, ts[i].txid)
  {
    hide Agrees, Handled, Settlement.Grows, Handle;
    if ts == [] {
      Settlement.GrowsSelf(st.db, st.db);
      assert pending - Txids(ts) == pending;
    } else {
      var n := |ts| - 1;
      AllAgree(st, ts[..n], pending, now, clock, chain);
      var before, after := HandleAll(st, ts[..n], now, clock), HandleAll(st, ts, now, clock);
      HandleAgrees(before, ts[n], pending - Txids(ts[..n]), now, clock, chain);
      assert pending - Txids(ts[..n]) - {ts[n].txid} == pending - Txids(ts);
      Settlement.GrowsTransitive(st.db, before.db, after.db);
      forall i: nat | i < |ts| ensures Handled(after.db, ts[i].txid) {
        if i < n {
          assert Handled(before.db, ts[..n][i].txid);
          HandledKept(before.db, after.db, ts[i].txid);
        }
      }
    }
  }

  lemma OpeningAgrees(db: Db, transfers: seq<Transfer>, now: int, chain: Amounts)
    requires Settlement.Books(db, chain) && LedgerBook.NeverNegative(db.ledger.rows)
    ensures Agrees(Opening(db, transfers, now), Txids(transfers), chain)
  {
    var st := Opening(db, transfers, now);
    forall k: nat | k < |st.cs| ensures Settlement.CandOk(db, st.cs[k]) {
    }
    forall t | t in Txids(transfers) ensures NoteOk(st, t) {
      var taken := FindTx(db.payments, t);
      if taken.Some? {
        Settlement.SeeOk(db, chain, taken.value, t);
        assert Settlement.RowOk(db.payments[taken.value], |db.orders|, chain);
      }
    }
  }

  lemma SortKeeps(transfers: seq<Transfer>)
    ensures Txids(OldestFirst(transfers)) == Txids(transfers)
    ensures forall t :: t in OldestFirst(transfers) <==> t in transfers
  {
    var sorted := OldestFirst(transfers);
    SortPermutes(transfers);
    forall t ensures t in sorted <==> t in transfers {
      assert t in multiset(sorted) <==> t in multiset(transfers);
    }
    forall x ensures x in Txids(sorted) <==> x in Txids(transfers) {
      if x in Txids(sorted) {
        var i: nat :| i < |sorted| && sorted[i].txid == x;
        assert sorted[i] in transfers;
      }
      if x in Txids(transfers) {
        var i: nat :| i < |transfers| && transfers[i].txid == x;
        assert transfers[i] in sorted;
      }
    }
  }

  /** One transfer per txid: whatever the order, no two entries of the list share one. */
  lemma SortDistinct(transfers: seq<Transfer>)
    requires DistinctTxids(transfers)
    ensures DistinctTxids(OldestFirst(transfers))
  {
    var sorted := OldestFirst(transfers);
    SortKeeps(transfers);
    SortPermutes(transfers);
    forall i: nat, j: nat | i < j < |sorted| ensures sorted[i].txid != sorted[j].txid {
      if sorted[i].txid == sorted[j].txid {
        assert sorted[i] in transfers && sorted[j] in transfers;
        assert sorted[i] == sorted[j];
        TwoOccurrences(sorted, i, j);
        OneOccurrence(transfers, sorted[i]);
      }
    }
  }

  lemma TwoOccurrences(s: seq<Transfer>, i: nat, j: nat)
    requires i < j < |s| && s[i] == s[j]
    ensures multiset(s)[s[i]] >= 2
  {
    assert s == s[..i] + [s[i]] + s[i + 1..j] + [s[j]] + s[j + 1..];
  }

  lemma {:induction false} OneOccurrence(s: seq<Transfer>, t: Transfer)
    requires DistinctTxids(s)
    ensures multiset(s)[t] <= 1
  {
    if s != [] {
      var n := |s| - 1;
      OneOccurrence(s[..n], t);
      assert s == s[..n] + [s[n]];
      if s[n] == t { assert t !in s[..n]; }
    }
  }

  /** The sorted list is the list: same transfers, same amounts, still one per txid. */
  lemma SortedList(transfers: seq<Transfer>, chain: Amounts)
    requires DistinctTxids(transfers) && forall t | t in transfers :: t.amount == chain(t.txid)
    ensures var sorted := OldestFirst(transfers);
            && DistinctTxids(sorted) && Txids(sorted) == Txids(transfers)
            && (forall i: nat | i < |sorted| :: sorted[i].txid in Txids(transfers) && sorted[i].amount == chain(sorted[i].txid))
            && (forall t | t in transfers :: t in sorted)
  {
    SortKeeps(transfers);
    SortDistinct(transfers);
    var sorted := OldestFirst(transfers);
    forall i: nat | i < |sorted| ensures sorted[i].txid in Txids(transfers) && sorted[i].amount == chain(sorted[i].txid) {
      assert sorted[i] in sorted && sorted[i].txid in Txids(sorted);
    }
  }

  /** Nothing is left unaccounted: after one uninterrupted sweep every listed transfer sits on a
      payment that has left CONFIRMING, or is flagged for an operator; also those whose binding an
      earlier sweep did not live to settle. */
  lemma SweepAccountsForAll(db: Db, transfers: seq<Transfer>, now: int, clock: int, chain: Amounts)
    requires Settlement.Books(db, chain) && LedgerBook.NeverNegative(db.ledger.rows) && DistinctTxids(transfers)
    requires forall t | t in transfers :: t.amount == chain(t.txid)
    ensures var after := HandleAll(Opening(db, transfers, now), OldestFirst(transfers), now, clock).db;
            && Settlement.Books(after, chain) && Settlement.Grows(db, after)
            && forall t | t in transfers :: Handled(after, t.txid)
  {
    var sorted := OldestFirst(transfers);
    OpeningAgrees(db, transfers, now, chain);
    SortedList(transfers, chain);
    hide OldestFirst, DistinctTxids;
    AllAgree(Opening(db, transfers, now), sorted, Txids(transfers), now, clock, chain);
    hide HandleAll, Handled, Settlement.Books, Settlement.Grows;
    var after := HandleAll(Opening(db, transfers, now), sorted, now, clock).db;
    forall t | t in transfers ensures Handled(after, t.txid) {
      var i: nat :| i < |sorted| && sorted[i] == t;
    }
  }

  // ---------------------------------------------------------------- the earlier transfer wins

  /** The candidate at `k` still waits for a transfer, alone with its tag, and `e` is still to come. */
  predicate Waits(st: Sheet, k: nat, i: Id, tag: nat, e: Txid) {
    && k < |st.cs| && st.cs[k].id == i && st.cs[k].txHash.None? && TagOf(st.cs[k].amount) == tag
    && (forall l: nat | l < |st.cs| && TakesByTag(st.cs[l], tag) :: l == k)
    && e !in st.recorded && e !in st.flagged
  }

  /** A transfer that does not compete for the candidate: another tag, or known or flagged already. */
  predicate Bystander(st: Sheet, t: Transfer, tag: nat) {
    TagOf(t.amount) != tag || t.txid in st.recorded || t.txid in st.flagged
  }

  lemma MatchedElsewhere(txid: Txid, amount: int, cs: seq<Candidate>, k: nat)
    requires k < |cs| && TagOf(amount) != TagOf(cs[k].amount)
    ensures var m := MatchTransfer(txid, amount, cs);
            m.Exact? || m.ByTag? ==> m.at != k
  {
    hide TagOf;
    ExactIff(txid, amount, cs);
    var m := MatchTransfer(txid, amount, cs);
    if m.ByTag? { ByTagIff(txid, amount, cs, m.at); }
  }

  /** All that `Handle` does to the maps: one more note or flag, at most one candidate bound. */
  predicate MapsAfter(st: Sheet, st': Sheet, t: Txid, m: Option<nat>) {
    && |st'.cs| == |st.cs|
    && (forall l: nat | l < |st.cs| :: st'.cs[l] == st.cs[l].(txHash := st'.cs[l].txHash))
    && (forall l: nat | l < |st.cs| && m != Some(l) :: st'.cs[l] == st.cs[l])
    && (forall x | x in st'.recorded :: x in st.recorded || x == t) && (forall x | x in st.recorded :: x in st'.recorded)
    && st.flagged <= st'.flagged <= st.flagged + {t}
  }

  lemma HandleMaps(st: Sheet, t: Transfer, now: int, clock: int)
    ensures var m := MatchTransfer(t.txid, t.amount, st.cs);
            MapsAfter(st, Handle(st, t, now, clock), t.txid,
                      if t.txid !in st.flagged && t.txid !in st.recorded && (m.Exact? || m.ByTag?) then Some(m.at) else None)
  {
    hide MatchTransfer, SettleTx, ExpectedFor, BindTx;
  }

  lemma BystanderPasses(st: Sheet, t: Transfer, k: nat, i: Id, tag: nat, e: Txid, now: int, clock: int)
    requires Waits(st, k, i, tag, e) && Bystander(st, t, tag) && t.txid != e
    ensures var st' := Handle(st, t, now, clock);
            && Waits(st', k, i, tag, e)
            && (forall x | x in st.recorded :: x in st'.recorded) && st.flagged <= st'.flagged
  {
    var st', m := Handle(st, t, now, clock), MatchTransfer(t.txid, t.amount, st.cs);
    HandleMaps(st, t, now, clock);
    if TagOf(t.amount) != tag { MatchedElsewhere(t.txid, t.amount, st.cs, k); }
    hide TagOf, Handle, MatchTransfer;
    forall l: nat | l < |st'.cs| && TakesByTag(st'.cs[l], tag) ensures l == k {
      assert TakesByTag(st.cs[l], tag);
    }
  }

  /** The candidate's turn. */
  lemma WinnerTakes(st: Sheet, t: Transfer, k: nat, i: Id, tag: nat, pending: set<Txid>, now: int, clock: int, chain: Amounts)
    requires Agrees(st, pending, chain) && t.txid in pending && t.amount == chain(t.txid)
    requires Waits(st, k, i, tag, t.txid) && TagOf(t.amount) == tag != 0
    ensures var st' := Handle(st, t, now, clock);
            i < |st'.db.payments| && Settlement.Carries(st'.db.payments[i], t.txid)
  {
    assert NoteOk(st, t.txid) && Settlement.CandOk(st.db, st.cs[k]);
    assert TakesByTag(st.cs[k], tag);
    SoleHolderMatches(t.txid, t.amount, st.cs, k);
    BindWorks(st, k, t, pending, clock, chain);
    NotedBooks(st, k, t, pending, clock, chain);
    NotedCands(st, k, t, pending, clock, chain);
    var noted := Noted(st, k, t, clock);
    assert Settlement.Carries(noted.db.payments[i], t.txid);
    SettleWorks(noted.db, noted.recorded[t.txid], st.cs[k].amount, t.txid, now, clock, chain);
    var st' := Handle(st, t, now, clock);
    hide TagOf, MatchTransfer, Agrees, SettleTx, Settlement.Books, BindTx, Noted, Alone;
    assert st' == Tried(noted, noted.recorded[t.txid], st.cs[k].amount, t, now, clock);
    assert Settlement.PaymentGrows(noted.db.payments[i], st'.db.payments[i]);
  }

  /** The transfer at `j` competes for the candidate at `k`, and nothing before it does. */
  ghost predicate RaceOn(st: Sheet, ts: seq<Transfer>, j: nat, k: nat, i: Id, tag: nat, pending: set<Txid>, chain: Amounts) {
    && Agrees(st, pending, chain) && DistinctTxids(ts) && j < |ts| && i < |st.db.payments|
    && (forall x: nat | x < |ts| :: ts[x].txid in pending && ts[x].amount == chain(ts[x].txid))
    && Waits(st, k, i, tag, ts[j].txid) && TagOf(ts[j].amount) == tag != 0 && st.db.payments[i].provider.Tron?
    && (forall x: nat | x < j :: Bystander(st, ts[x], tag))
  }

  lemma {:induction false} Race(st: Sheet, ts: seq<Transfer>, n: nat, j: nat, k: nat, i: Id, tag: nat, pending: set<Txid>,
                                now: int, clock: int, chain: Amounts)
    requires n <= |ts| && RaceOn(st, ts, j, k, i, tag, pending, chain)
    ensures var st' := HandleAll(st, ts[..n], now, clock);
            && (n <= j ==> Waits(st', k, i, tag, ts[j].txid)
                           && (forall x | x in st.recorded :: x in st'.recorded) && st.flagged <= st'.flagged)
            && (n > j ==> i < |st'.db.payments| && Settlement.Carries(st'.db.payments[i], ts[j].txid))
    decreases n
  {
    hide Agrees, Waits, Handle, TagOf;
    if n == 0 {
    } else {
      var m := n - 1;
      assert ts[..n][..m] == ts[..m];
      Race(st, ts, m, j, k, i, tag, pending, now, clock, chain);
      AllAgree(st, ts[..m], pending, now, clock, chain);
      var before := HandleAll(st, ts[..m], now, clock);
      var left := pending - Txids(ts[..m]);
      assert ts[m].txid in left;
      HandleAgrees(before, ts[m], left, now, clock, chain);
      if m < j {
        assert Bystander(before, ts[m], tag) by { assert Bystander(st, ts[m], tag); }
        BystanderPasses(before, ts[m], k, i, tag, ts[j].txid, now, clock);
      } else if m == j {
        WinnerTakes(before, ts[m], k, i, tag, left, now, clock, chain);
      } else {
        assert Settlement.PaymentGrows(before.db.payments[i], Handle(before, ts[m], now, clock).db.payments[i]);
      }
    }
  }

  /** Neither flagged nor bound before. */
  predicate Unknown(db: Db, t: Transfer) {
    t.txid !in db.flagged && FindTx(db.payments, t.txid).None?
  }

  /** A waiting invoice, alone with its tag among the rows that can take a transfer. */
  predicate SoleTaker(db: Db, i: Id, now: int) {
    && i < |db.payments| && Loadable(db.payments[i], now) && db.payments[i].txHash.None? && TagOf(db.payments[i].amount) != 0
    && forall l: Id | l < |db.payments| && Loadable(db.payments[l], now) && TagOf(db.payments[l].amount) == TagOf(db.payments[i].amount)
                      && (db.payments[l].txHash.None? || db.payments[l].status.Underpaid?) :: l == i
  }

  /** The earliest of the new transfers that carry its tag. */
  predicate Earliest(db: Db, transfers: seq<Transfer>, e: Transfer) {
    && e in transfers && Unknown(db, e)
    && forall t | t in transfers && t != e && TagOf(t.amount) == TagOf(e.amount) && Unknown(db, t) :: e.timestamp < t.timestamp
  }

  lemma EarlierOnesStandBy(db: Db, transfers: seq<Transfer>, now: int, e: Transfer, j: nat)
    requires DistinctTxids(transfers) && Earliest(db, transfers, e) && j < |OldestFirst(transfers)| && OldestFirst(transfers)[j] == e
    ensures forall x: nat | x < j :: Bystander(Opening(db, transfers, now), OldestFirst(transfers)[x], TagOf(e.amount))
  {
    var sorted, st := OldestFirst(transfers), Opening(db, transfers, now);
    SortKeeps(transfers);
    SortDistinct(transfers);
    SortsInOrder(transfers);
    hide TagOf, OldestFirst, LoadCandidates;
    forall x: nat | x < j ensures Bystander(st, sorted[x], TagOf(e.amount)) {
      assert sorted[x] in sorted && sorted[x].txid in Txids(sorted);
      assert sorted[x].timestamp <= sorted[j].timestamp && sorted[x].txid != sorted[j].txid;
    }
  }

  lemma OpeningWaits(db: Db, transfers: seq<Transfer>, now: int, i: Id, e: Transfer) returns (k: nat)
    requires SoleTaker(db, i, now) && Earliest(db, transfers, e) && TagOf(e.amount) == TagOf(db.payments[i].amount)
    ensures Waits(Opening(db, transfers, now), k, i, TagOf(e.amount), e.txid)
  {
    hide TagOf;
    var cs := LoadCandidates(db.payments, db.orders, now);
    k :| k < |cs| && cs[k].id == i;
    forall l: nat | l < |cs| && TakesByTag(cs[l], TagOf(e.amount)) ensures l == k {
      assert Loadable(db.payments[cs[l].id], now);
    }
  }

  lemma RaceFacts(db: Db, transfers: seq<Transfer>, now: int, i: Id, e: Transfer)
    requires SoleTaker(db, i, now) && Earliest(db, transfers, e) && TagOf(e.amount) == TagOf(db.payments[i].amount)
    ensures Opening(db, transfers, now).db == db && i < |db.payments| && db.payments[i].provider.Tron? && e in transfers && TagOf(e.amount) != 0
  {
    hide TagOf;
  }

  lemma RaceStarts(db: Db, transfers: seq<Transfer>, now: int, chain: Amounts, i: Id, e: Transfer) returns (j: nat, k: nat)
    requires Settlement.Books(db, chain) && LedgerBook.NeverNegative(db.ledger.rows) && DistinctTxids(transfers)
    requires forall t | t in transfers :: t.amount == chain(t.txid)
    requires SoleTaker(db, i, now) && Earliest(db, transfers, e) && TagOf(e.amount) == TagOf(db.payments[i].amount)
    ensures RaceOn(Opening(db, transfers, now), OldestFirst(transfers), j, k, i, TagOf(e.amount), Txids(transfers), chain)
    ensures OldestFirst(transfers)[j] == e
  {
    hide Agrees, Settlement.Books, TagOf, OldestFirst, LedgerBook.NeverNegative, Waits, Bystander, DistinctTxids, Txids, Opening,
         SoleTaker, Earliest, InOrder, UpTo;
    RaceFacts(db, transfers, now, i, e);
    OpeningAgrees(db, transfers, now, chain);
    SortedList(transfers, chain);
    j :| j < |OldestFirst(transfers)| && OldestFirst(transfers)[j] == e;
    k := OpeningWaits(db, transfers, now, i, e);
    EarlierOnesStandBy(db, transfers, now, e, j);
  }

  /** Of all new transfers that carry the tag of a waiting invoice, the one with the earliest block
      timestamp gets it, wherever it stands in the list. */
  lemma EarliestTakesTheInvoice(db: Db, transfers: seq<Transfer>, now: int, clock: int, chain: Amounts, i: Id, e: Transfer)
    requires Settlement.Books(db, chain) && LedgerBook.NeverNegative(db.ledger.rows) && DistinctTxids(transfers)
    requires forall t | t in transfers :: t.amount == chain(t.txid)
    requires SoleTaker(db, i, now) && Earliest(db, transfers, e) && TagOf(e.amount) == TagOf(db.payments[i].amount)
    ensures var after := HandleAll(Opening(db, transfers, now), OldestFirst(transfers), now, clock).db;
            i < |after.payments| && Settlement.Carries(after.payments[i], e.txid)
  {
    var j, k := RaceStarts(db, transfers, now, chain, i, e);
    var sorted := OldestFirst(transfers);
    assert j < |sorted|;
    hide *;
    Race(Opening(db, transfers, now), sorted, |sorted|, j, k, i, TagOf(e.amount), Txids(transfers), now, clock, chain);
    assert sorted[..|sorted|] == sorted;
  }

  // ---------------------------------------------------------------- the loop refines the machine

  function SheetOf(s: Settlement.Wallet, p: nat): Sheet
    requires p in s.sweeps
  {
    Sheet(s.db, s.sweeps[p].recorded, s.sweeps[p].flagged, s.sweeps[p].cs)
  }

  /** The sweep `p` with the maps and tables of `st`, idle. */
  function Resumed(s: Settlement.Wallet, p: nat, st: Sheet): Settlement.Wallet
    requires p in s.sweeps
  {
    Settlement.Wallet(st.db, s.sweeps[p := s.sweeps[p].(recorded := st.recorded, flagged := st.flagged, cs := st.cs,
                                                        task := Settlement.Idle)])
  }

  lemma SettleFromSheet(s: Settlement.Wallet, p: nat, n: nat, seen: Seen, expected: int, t: Transfer, clock: int, chain: Amounts)
    requires p in s.sweeps && t.amount == chain(t.txid) && n >= 4
    ensures Settlement.Steps(Settlement.Does(s, p, Settlement.Settling(seen, expected, t.txid)), p, n, clock, chain)
         == Resumed(s, p, Tried(SheetOf(s, p), seen, expected, t, s.sweeps[p].now, clock))
  {
    hide SettleTx;
    Settlement.StepsAreSettle(s, p, n, seen, expected, t.txid, clock, chain);
  }

  lemma BindIsNoted(st: Sheet, k: nat, t: Transfer, clock: int)
    requires k < |st.cs| && BindTx(st.db.payments, st.cs[k], t.txid, t.amount, clock).Ok?
    ensures var tx := BindTx(st.db.payments, st.cs[k], t.txid, t.amount, clock).value;
            var db := st.db.(payments := tx.payments);
            && tx.id < |tx.payments| && tx.payments[tx.id].txHash == Some(t.txid)
            && Noted(st, k, t, clock)
               == Sheet(db, st.recorded[t.txid := See(db, tx.id)], st.flagged, st.cs[k := st.cs[k].(txHash := Some(t.txid))])
  {
  }

  lemma BindFromSheet(s: Settlement.Wallet, p: nat, k: nat, t: Transfer, clock: int, chain: Amounts)
    requires p in s.sweeps && s.sweeps[p].task.Idle? && k < |s.sweeps[p].cs| && s.sweeps[p].cs[k].createdAt < clock
    requires t.txid !in s.sweeps[p].recorded && t.amount == chain(t.txid)
    ensures p in Settlement.Bind(s, p, k, t.txid, clock, chain).sweeps
    ensures Settlement.Steps(Settlement.Bind(s, p, k, t.txid, clock, chain), p, 5, clock, chain)
         == Resumed(s, p, BindAndSettle(SheetOf(s, p), k, t, s.sweeps[p].now, clock))
  {
    var w, st := s.sweeps[p], SheetOf(s, p);
    var tx := BindTx(s.db.payments, w.cs[k], t.txid, t.amount, clock);
    if tx.Err? {
      Settlement.IdleStays(s, p, 5, clock, chain);
      assert Noted(st, k, t, clock) == st;
    } else {
      BindIsNoted(st, k, t, clock);
      var noted := Noted(st, k, t, clock);
      var read := Resumed(s, p, noted);
      var bound := Settlement.Bind(s, p, k, t.txid, clock, chain);
      var seen := noted.recorded[t.txid];
      hide BindTx, Noted, Tried;
      ReadsBack(s, p, noted, tx.value.id, w.cs[k].amount, t.txid, clock, chain);
      if seen.row.status.Confirming? {
        SettleFromSheet(read, p, 4, seen, w.cs[k].amount, t, clock, chain);
      } else {
        assert Settlement.Does(read, p, Settlement.Idle) == read;
        Settlement.IdleStays(read, p, 4, clock, chain);
      }
    }
  }

  /** Reading the bound row back. */
  lemma ReadsBack(s: Settlement.Wallet, p: nat, noted: Sheet, row: Id, expected: int, txid: Txid, clock: int, chain: Amounts)
    requires p in s.sweeps && row < |noted.db.payments| && txid in noted.recorded && noted.recorded[txid] == See(noted.db, row)
    requires noted.recorded == s.sweeps[p].recorded[txid := noted.recorded[txid]] && noted.flagged == s.sweeps[p].flagged
    ensures var w := s.sweeps[p];
            var bound := Settlement.Wallet(noted.db, s.sweeps[p := w.(cs := noted.cs, task := Settlement.Reading(row, expected, txid))]);
            var seen := noted.recorded[txid];
            Settlement.Continue(bound, p, clock, chain)
            == Settlement.Does(Resumed(s, p, noted), p,
                               if seen.row.status.Confirming? then Settlement.Settling(seen, expected, txid) else Settlement.Idle)
  {
    hide See;
  }

  /** One turn of the loop is a run of the machine: the sweep takes the transfer up and goes on until it
      is idle again, with nothing in between. All that holds of every run holds of the loop. */
  lemma HandleIsARun(s: Settlement.Wallet, p: nat, t: Transfer, clock: int, chain: Amounts)
    requires p in s.sweeps && s.sweeps[p].task.Idle? && t.txid in s.sweeps[p].listed && t.amount == chain(t.txid)
    requires forall k: nat | k < |s.sweeps[p].cs| :: s.sweeps[p].cs[k].createdAt < clock
    ensures var taken := Settlement.TakeUp(s, p, t.txid, clock, chain);
            && p in taken.sweeps
            && Settlement.Steps(taken, p, 5, clock, chain) == Resumed(s, p, Handle(SheetOf(s, p), t, s.sweeps[p].now, clock))
  {
    var w, m := s.sweeps[p], MatchTransfer(t.txid, t.amount, s.sweeps[p].cs);
    hide MatchTransfer, ExpectedFor, Tried, Settlement.Bind, BindAndSettle;
    if t.txid in w.flagged {
      Settlement.IdleStays(s, p, 5, clock, chain);
    } else if t.txid in w.recorded {
      if w.recorded[t.txid].row.status.Confirming? {
        SettleFromSheet(s, p, 5, w.recorded[t.txid], ExpectedFor(w.recorded[t.txid], w.cs), t, clock, chain);
      } else {
        Settlement.IdleStays(s, p, 5, clock, chain);
      }
    } else if m.Exact? || m.ByTag? {
      BindFromSheet(s, p, m.at, t, clock, chain);
    } else {
      Settlement.IdleStays(Settlement.TakeUp(s, p, t.txid, clock, chain), p, 5, clock, chain);
    }
  }
}
