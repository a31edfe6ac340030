/** packages/core/src/ledger.ts: an append-only ledger with idempotency records. */
module LedgerBook {
  import opened Schema
  import opened Sums

  datatype Entry = Entry(user: Id, amountCents: int, kind: LedgerType, order: Option<Id>, payment: Option<Id>, key: Key)
  datatype Call = Credit(entry: Entry) | Debit(entry: Entry)

  /** The ledger after a call, and the call's answer; an `Err` wrote nothing. */
  datatype Posted = Posted(ledger: Ledger, answer: Result<EntryResult>)

  function OfUser(user: Id): Row -> int {
    (r: Row) => if r.user == user then r.amountCents else 0
  }

  /** `getBalance`: the sum of the user's rows. */
  function BalanceOf(rows: seq<Row>, user: Id): int {
    Sum(rows, OfUser(user))
  }

  function Write(l: Ledger, e: Entry, signed: int): Posted {
    if e.key in l.records then
      match l.records[e.key]
      case LedgerRecord(result) => Posted(l, Ok(result))
      case ForeignRecord => Posted(l, Err(IdempotencyConflict))
    else
      var newBalance := BalanceOf(l.rows, e.user) + signed;
      if newBalance < 0 then Posted(l, Err(InsufficientBalance))
      else
        var result := EntryResult(|l.rows|, e.user, e.kind, signed, newBalance);
        Posted(Ledger(l.rows + [Row(e.user, e.kind, signed, e.order, e.payment)],
                      l.records[e.key := LedgerRecord(result)]),
               Ok(result))
  }

  function Post(l: Ledger, c: Call): Posted {
    if c.entry.amountCents <= 0 then Posted(l, Err(OutOfRange))
    else if c.Credit? then Write(l, c.entry, c.entry.amountCents)
    else Write(l, c.entry, -c.entry.amountCents)
  }

  /** The ledger a transaction goes on with after a call, or the error that aborts it. */
  function Booked(l: Ledger, c: Call): Result<Ledger> {
    var p := Post(l, c);
    if p.answer.Ok? then Ok(p.ledger) else Err(p.answer.error)
  }

  // ---------------------------------------------------------------- the calls, in place

  method WriteLedgerEntry(db: Database, e: Entry, signed: int) returns (answer: Result<EntryResult>)
    modifies db`rows, db`records
    ensures Posted(Ledger(db.rows, db.records), answer) == Write(old(Ledger(db.rows, db.records)), e, signed)
  {
    if e.key in db.records {
      var record := db.records[e.key];
      if record.ForeignRecord? {
        return Err(IdempotencyConflict);
      }
      return Ok(record.result);
    }
    var currentBalance := BalanceOf(db.rows, e.user);
    var newBalance := currentBalance + signed;
    if newBalance < 0 {
      return Err(InsufficientBalance);
    }
    var result := EntryResult(|db.rows|, e.user, e.kind, signed, newBalance);
    db.rows := db.rows + [Row(e.user, e.kind, signed, e.order, e.payment)];
    db.records := db.records[e.key := LedgerRecord(result)];
    return Ok(result);
  }

  method CreditUser(db: Database, e: Entry) returns (answer: Result<EntryResult>)
    modifies db`rows, db`records
    ensures Posted(Ledger(db.rows, db.records), answer) == Post(old(Ledger(db.rows, db.records)), Credit(e))
  {
    if e.amountCents <= 0 {
      return Err(OutOfRange);
    }
    answer := WriteLedgerEntry(db, e, e.amountCents);
  }

  method DebitUser(db: Database, e: Entry) returns (answer: Result<EntryResult>)
    modifies db`rows, db`records
    ensures Posted(Ledger(db.rows, db.records), answer) == Post(old(Ledger(db.rows, db.records)), Debit(e))
  {
    if e.amountCents <= 0 {
      return Err(OutOfRange);
    }
    answer := WriteLedgerEntry(db, e, -e.amountCents);
  }

  // ---------------------------------------------------------------- what one call comes to

  /** The answer a repeat of the call gets, or whether the balance allows the first one. */
  predicate Accepts(l: Ledger, c: Call) {
    && c.entry.amountCents > 0
    && if c.entry.key in l.records then l.records[c.entry.key].LedgerRecord?
       else BalanceOf(l.rows, c.entry.user) + (if c.Credit? then c.entry.amountCents else 0 - c.entry.amountCents) >= 0
  }

  /** The ledger has this row more, or nothing if its amount is nothing: that user's balance moves by it, and
      nobody else's. */
  ghost predicate BooksOnly(rows: seq<Row>, rows': seq<Row>, r: Row) {
    && rows' == (if r.amountCents == 0 then rows else rows + [r])
    && forall u :: BalanceOf(rows', u) == BalanceOf(rows, u) + if u == r.user then r.amountCents else 0
  }

  /** A first call moves the balance of its user by its amount, up for a credit and down for a debit, in one
      row that says for what, and nobody else's; a repeat and a refused call move nothing. A positive amount
      is refused only if the key is taken by another scope or the balance would go below zero. */
  lemma PostMoves(l: Ledger, c: Call)
    ensures var p, e := Post(l, c), c.entry;
            var signed := if c.Credit? then e.amountCents else 0 - e.amountCents;
            && (p.answer.Ok? <==> Accepts(l, c))
            && (if Accepts(l, c) && e.key !in l.records
                then BooksOnly(l.rows, p.ledger.rows, Row(e.user, e.kind, signed, e.order, e.payment))
                else p.ledger == l)
  {
    if Accepts(l, c) && c.entry.key !in l.records {
      forall u {
        SumAppend(l.rows, Post(l, c).ledger.rows[|l.rows|], OfUser(u));
      }
    }
  }

  // ---------------------------------------------------------------- runs of calls

  function Run(l: Ledger, calls: seq<Call>): Ledger
    decreases calls
  {
    if calls == [] then l else Run(Post(l, calls[0]).ledger, calls[1..])
  }

  function Answers(l: Ledger, calls: seq<Call>): seq<Result<EntryResult>>
    decreases calls
  {
    if calls == [] then []
    else [Post(l, calls[0]).answer] + Answers(Post(l, calls[0]).ledger, calls[1..])
  }

  /** Every prefix of every user's rows sums to at least zero. */
  ghost predicate NeverNegative(rows: seq<Row>) {
    forall user, n | 0 <= n <= |rows| :: BalanceOf(rows[..n], user) >= 0
  }

  /** A record answers for the row it was written with: same row, and the balance that row left. */
  ghost predicate Describes(rows: seq<Row>, result: EntryResult) {
    && result.id < |rows|
    && rows[result.id].user == result.user
    && rows[result.id].kind == result.kind
    && rows[result.id].amountCents == result.amountCents
    && result.balanceAfterCents == BalanceOf(rows[..result.id + 1], result.user)
  }

  /** The call recorded under key `k` wrote row `i`. */
  ghost predicate Wrote(l: Ledger, k: Key, i: nat) {
    k in l.records && l.records[k].LedgerRecord? && l.records[k].result.id == i
  }

  ghost predicate HasKey(l: Ledger, i: nat) {
    exists k :: Wrote(l, k, i)
  }

  /** Every record describes its row, no two records share a row, and every row has its record. */
  ghost predicate OneRowPerKey(l: Ledger) {
    && (forall k | k in l.records && l.records[k].LedgerRecord? :: Describes(l.rows, l.records[k].result))
    && (forall k, k', i: nat | Wrote(l, k, i) && Wrote(l, k', i) :: k == k')
    && (forall i: nat | i < |l.rows| :: HasKey(l, i))
  }

  ghost predicate Sound(l: Ledger) {
    NeverNegative(l.rows) && OneRowPerKey(l)
  }

  lemma BalanceAppend(rows: seq<Row>, r: Row, user: Id)
    ensures BalanceOf(rows + [r], user) == BalanceOf(rows, user) + if r.user == user then r.amountCents else 0
  {
    SumAppend(rows, r, OfUser(user));
  }

  lemma PostNeverNegative(l: Ledger, c: Call)
    requires NeverNegative(l.rows)
    ensures NeverNegative(Post(l, c).ledger.rows)
  {
    var l' := Post(l, c).ledger;
    if l' != l {
      var r := l'.rows[|l.rows|];
      assert l'.rows == l.rows + [r];
      forall user, n | 0 <= n <= |l'.rows| ensures BalanceOf(l'.rows[..n], user) >= 0 {
        if n <= |l.rows| {
          assert l'.rows[..n] == l.rows[..n];
        } else {
          assert l'.rows[..n] == l'.rows;
          assert l.rows[..|l.rows|] == l.rows;
          BalanceAppend(l.rows, r, user);
        }
      }
    }
  }

  lemma NewRowDescribed(l: Ledger, c: Call)
    requires OneRowPerKey(l)
    ensures var l' := Post(l, c).ledger;
            forall k | k in l'.records && l'.records[k].LedgerRecord? :: Describes(l'.rows, l'.records[k].result)
  {
    var l' := Post(l, c).ledger;
    forall k | k in l'.records && l'.records[k].LedgerRecord? ensures Describes(l'.rows, l'.records[k].result) {
      var result := l'.records[k].result;
      if k in l.records && l.records[k] == l'.records[k] {
        assert Describes(l.rows, result);
        assert l'.rows[..result.id + 1] == l.rows[..result.id + 1];
      } else {
        BalanceAppend(l.rows, l'.rows[|l.rows|], c.entry.user);
        assert l'.rows[..result.id + 1] == l'.rows;
      }
    }
  }

  lemma PostSound(l: Ledger, c: Call)
    requires Sound(l)
    ensures Sound(Post(l, c).ledger)
  {
    var l' := Post(l, c).ledger;
    PostNeverNegative(l, c);
    if l' != l {
      var e := c.entry;
      var r := l'.rows[|l.rows|];
      assert l'.rows == l.rows + [r];
      NewRowDescribed(l, c);
      hide Describes, NeverNegative;
      forall i: nat | i < |l'.rows| ensures HasKey(l', i) {
        if i == |l.rows| {
          assert Wrote(l', e.key, i);
        } else {
          assert HasKey(l, i);
          var k :| Wrote(l, k, i);
          assert Wrote(l', k, i);
        }
      }
      forall k, k', i: nat | Wrote(l', k, i) && Wrote(l', k', i) ensures k == k' {
        if i < |l.rows| {
          assert Wrote(l, k, i) && Wrote(l, k', i);
        }
      }
    }
  }

  /** Over every run: no balance is ever negative, each key wrote at most one row, and the stored
      `balanceAfterCents` is the user's sum up to that row. */
  lemma {:induction false} RunSound(l: Ledger, calls: seq<Call>)
    requires Sound(l)
    ensures Sound(Run(l, calls))
    decreases calls
  {
    if calls != [] {
      PostSound(l, calls[0]);
      RunSound(Post(l, calls[0]).ledger, calls[1..]);
    }
  }

  lemma EmptySound()
    ensures Sound(EMPTY_LEDGER)
  {
  }

  /** The ledger only grows: rows are a prefix of the later rows and a record never changes. */
  ghost predicate Extends(l: Ledger, l': Ledger) {
    && l.rows <= l'.rows
    && forall k | k in l.records :: k in l'.records && l'.records[k] == l.records[k]
  }

  lemma {:induction false} RunExtends(l: Ledger, calls: seq<Call>)
    ensures Extends(l, Run(l, calls))
    decreases calls
  {
    if calls != [] {
      RunExtends(Post(l, calls[0]).ledger, calls[1..]);
    }
  }

  /** The calls of a run that are not repeats: their key had no record when they were made. */
  function FirstTimes(l: Ledger, calls: seq<Call>): seq<Call>
    decreases calls
  {
    if calls == [] then []
    else
      var rest := FirstTimes(Post(l, calls[0]).ledger, calls[1..]);
      if calls[0].entry.key in l.records then rest else [calls[0]] + rest
  }

  /** The answers a run gave to those same calls. */
  function FirstAnswers(l: Ledger, calls: seq<Call>): seq<Result<EntryResult>>
    decreases calls
  {
    if calls == [] then []
    else
      var rest := FirstAnswers(Post(l, calls[0]).ledger, calls[1..]);
      if calls[0].entry.key in l.records then rest else [Post(l, calls[0]).answer] + rest
  }

  /** Repeats are invisible wherever they stand in a run: without them the run writes the same
      ledger and gives every other call the same answer. */
  lemma {:induction false} RepeatsAreInvisible(l: Ledger, calls: seq<Call>)
    ensures Run(l, FirstTimes(l, calls)) == Run(l, calls)
    ensures Answers(l, FirstTimes(l, calls)) == FirstAnswers(l, calls)
    decreases calls
  {
    if calls != [] {
      var l' := Post(l, calls[0]).ledger;
      RepeatsAreInvisible(l', calls[1..]);
      if calls[0].entry.key in l.records {
        assert l' == l;
      } else {
        var first := FirstTimes(l, calls);
        assert first[0] == calls[0] && first[1..] == FirstTimes(l', calls[1..]);
      }
    }
  }

  /** A call that succeeded is answered the same way forever after: whatever ran in between, a
      repeat under its key writes nothing and returns the first result. */
  lemma RepeatAnswersFirst(l: Ledger, c: Call, between: seq<Call>, again: Call)
    requires Post(l, c).answer.Ok?
    requires again.entry.key == c.entry.key && again.entry.amountCents > 0
    ensures var later := Run(Post(l, c).ledger, between);
            Post(later, again) == Posted(later, Post(l, c).answer)
  {
    RunExtends(Post(l, c).ledger, between);
  }
}
