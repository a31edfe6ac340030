/** apps/worker/src/lib/tron-match.ts: which open invoice does a transfer belong to? */
module TronMatch {
  import opened Schema
  import opened Money

  /** An open invoice as one sweep sees it. `status` and `txHash` are the sweep's own view;
      `row` and `order` are the copies it loaded. */
  datatype Candidate = Candidate(
    id: Id,
    amount: int,
    status: PaymentStatus,
    txHash: Option<Txid>,
    createdAt: int,
    row: Payment,
    order: Option<Order>)

  datatype Transfer = Transfer(txid: Txid, amount: nat, timestamp: int)

  datatype Reason = NoTag | UnknownTag | AmbiguousTag

  /** The matched candidate is named by its position in the list. */
  datatype Match = Exact(at: nat) | ByTag(at: nat) | AlreadyRecorded(at: nat) | Unmatched(reason: Reason)

  predicate CanTake(c: Candidate) {
    c.txHash.None? || c.status.Underpaid?
  }

  predicate TakesExactly(c: Candidate, amount: int) {
    c.amount == amount && CanTake(c)
  }

  predicate TakesByTag(c: Candidate, tag: nat) {
    TagOf(c.amount) == tag && CanTake(c)
  }

  // ---------------------------------------------------------------- find, filter, sort

  function FindRecorded(cs: seq<Candidate>, txid: Txid): (r: Option<nat>)
    ensures r.Some? ==> r.value < |cs| && cs[r.value].txHash == Some(txid)
    ensures r.None? ==> forall i: nat | i < |cs| :: cs[i].txHash != Some(txid)
  {
    if cs == [] then None
    else
      var earlier := FindRecorded(cs[..|cs| - 1], txid);
      if earlier.Some? then earlier
      else if cs[|cs| - 1].txHash == Some(txid) then Some(|cs| - 1)
      else None
  }

  function ExactOnes(cs: seq<Candidate>, amount: int): (r: seq<nat>)
    ensures forall i: nat :: i in r <==> i < |cs| && TakesExactly(cs[i], amount)
    ensures forall a: nat, b: nat | a < b < |r| :: r[a] < r[b]
  {
    if cs == [] then []
    else
      var n := |cs| - 1;
      var front := ExactOnes(cs[..n], amount);
      assert forall a: nat | a < |front| :: front[a] in front;
      if TakesExactly(cs[n], amount) then front + [n] else front
  }

  function TagOnes(cs: seq<Candidate>, tag: nat): (r: seq<nat>)
    ensures forall i: nat :: i in r <==> i < |cs| && TakesByTag(cs[i], tag)
    ensures forall a: nat, b: nat | a < b < |r| :: r[a] < r[b]
  {
    if cs == [] then []
    else
      var n := |cs| - 1;
      var front := TagOnes(cs[..n], tag);
      assert forall a: nat | a < |front| :: front[a] in front;
      if TakesByTag(cs[n], tag) then front + [n] else front
  }

  /** The comparison of the sort: live before expired, then newest first. */
  predicate Before(a: Candidate, b: Candidate) {
    if a.status.Expired? != b.status.Expired? then b.status.Expired? else a.createdAt > b.createdAt
  }

  /** First element of the stable sort: the earliest one that nothing comes before. */
  function PickBest(cs: seq<Candidate>, among: seq<nat>): (r: nat)
    requires among != [] && forall i | i in among :: i < |cs|
    ensures r in among && forall i | i in among :: !Before(cs[i], cs[r])
    ensures (forall a: nat, b: nat | a < b < |among| :: among[a] < among[b]) ==> forall i | i in among && i < r :: Before(cs[r], cs[i])
  {
    var n := |among| - 1;
    if n == 0 then among[0]
    else
      assert forall i | i in among[..n] :: i in among;
      assert among[n] in among;
      var best := PickBest(cs, among[..n]);
      if Before(cs[among[n]], cs[best]) then among[n] else best
  }

  function MatchTransfer(txid: Txid, amount: int, cs: seq<Candidate>): (m: Match)
    ensures m.Exact? || m.ByTag? ==> m.at < |cs| && CanTake(cs[m.at])
  {
    var recorded := FindRecorded(cs, txid);
    if recorded.Some? then AlreadyRecorded(recorded.value)
    else
      var exact := ExactOnes(cs, amount);
      if exact != [] then Exact(PickBest(cs, exact))
      else
        var tag := TagOf(amount);
        if tag == 0 then Unmatched(NoTag)
        else
          var byTag := TagOnes(cs, tag);
          if |byTag| == 1 then assert byTag[0] in byTag; ByTag(byTag[0])
          else if |byTag| == 0 then Unmatched(UnknownTag)
          else Unmatched(AmbiguousTag)
  }

  // ---------------------------------------------------------------- what a match means

  /** A by-tag match is never a guess: it happens if and only if the transfer is new, nobody was
      asked for exactly its amount, it carries a tag, and one candidate alone can take that tag. */
  lemma ByTagIff(txid: Txid, amount: int, cs: seq<Candidate>, k: nat)
    ensures MatchTransfer(txid, amount, cs) == ByTag(k) <==>
      && (forall i: nat | i < |cs| :: cs[i].txHash != Some(txid) && !TakesExactly(cs[i], amount))
      && TagOf(amount) != 0
      && k < |cs| && TakesByTag(cs[k], TagOf(amount))
      && (forall i: nat | i < |cs| && TakesByTag(cs[i], TagOf(amount)) :: i == k)
  {
    var exact, byTag := ExactOnes(cs, amount), TagOnes(cs, TagOf(amount));
    if exact != [] { assert exact[0] in exact; }
    if |byTag| == 1 { assert byTag[0] in byTag; }
    if |byTag| > 1 { assert byTag[0] in byTag && byTag[1] in byTag && byTag[0] < byTag[1]; }
  }

  /** An exact match goes to a candidate asked for precisely that amount: to a live one if there is one, of
      those that are alike in this to the newest, and of several as new to the first in the list. It fails
      only if the transfer is recorded or nobody was asked for it. */
  lemma ExactIff(txid: Txid, amount: int, cs: seq<Candidate>)
    ensures var m := MatchTransfer(txid, amount, cs);
            && (m.Exact? <==> (forall i: nat | i < |cs| :: cs[i].txHash != Some(txid))
                              && (exists i: nat :: i < |cs| && TakesExactly(cs[i], amount)))
            && (m.Exact? ==>
                  && m.at < |cs| && TakesExactly(cs[m.at], amount)
                  && forall i: nat | i < |cs| && TakesExactly(cs[i], amount) ::
                       && (cs[m.at].status.Expired? ==> cs[i].status.Expired?)
                       && (cs[m.at].status.Expired? == cs[i].status.Expired? ==> cs[m.at].createdAt >= cs[i].createdAt)
                       && (cs[m.at].status.Expired? == cs[i].status.Expired? && cs[m.at].createdAt == cs[i].createdAt ==> m.at <= i))
  {
    var exact := ExactOnes(cs, amount);
    if exact != [] { assert exact[0] in exact; }
  }

  /** A transfer is recorded exactly if a candidate carries it, and otherwise, if nobody was asked for its amount
      and no one candidate alone can take its tag, it is left to an operator, who is told whether it has no
      tag, one that nobody can take, or one that several can. */
  lemma UnmatchedIff(txid: Txid, amount: int, cs: seq<Candidate>)
    ensures var m, tag := MatchTransfer(txid, amount, cs), TagOf(amount);
            var recorded := exists i: nat :: i < |cs| && cs[i].txHash == Some(txid);
            var asked := exists i: nat :: i < |cs| && TakesExactly(cs[i], amount);
            var taken := exists i: nat :: i < |cs| && TakesByTag(cs[i], tag);
            var shared := exists i: nat, j: nat :: i < j < |cs| && TakesByTag(cs[i], tag) && TakesByTag(cs[j], tag);
            && (m.AlreadyRecorded? <==> recorded)
            && (m.AlreadyRecorded? ==> m.at < |cs| && cs[m.at].txHash == Some(txid))
            && (m == Unmatched(NoTag) <==> !recorded && !asked && tag == 0)
            && (m == Unmatched(UnknownTag) <==> !recorded && !asked && tag != 0 && !taken)
            && (m == Unmatched(AmbiguousTag) <==> !recorded && !asked && tag != 0 && shared)
  {
    var exact, byTag := ExactOnes(cs, amount), TagOnes(cs, TagOf(amount));
    if exact != [] { assert exact[0] in exact; }
    if byTag != [] { assert byTag[0] in byTag; }
    if |byTag| >= 2 { assert byTag[1] in byTag && byTag[0] < byTag[1]; }
    if i: nat, j: nat :| i < j < |cs| && TakesByTag(cs[i], TagOf(amount)) && TakesByTag(cs[j], TagOf(amount)) {
      TwoMembers(byTag, i, j);
    }
    hide TagOf, ExactOnes, TagOnes, FindRecorded;
  }

  /** If one candidate alone can take the tag of a new transfer, the transfer is matched to it,
      whatever its amount. */
  lemma SoleHolderMatches(txid: Txid, amount: int, cs: seq<Candidate>, k: nat)
    requires k < |cs| && TagOf(amount) != 0 && TakesByTag(cs[k], TagOf(amount))
    requires forall i: nat | i < |cs| && TakesByTag(cs[i], TagOf(amount)) :: i == k
    requires forall i: nat | i < |cs| :: cs[i].txHash != Some(txid)
    ensures MatchTransfer(txid, amount, cs) == if cs[k].amount == amount then Exact(k) else ByTag(k)
  {
    if cs[k].amount == amount {
      ExactIff(txid, amount, cs);
      assert TakesExactly(cs[k], amount);
      var m := MatchTransfer(txid, amount, cs);
      assert TakesByTag(cs[m.at], TagOf(amount));
    } else {
      ByTagIff(txid, amount, cs, k);
      forall i: nat | i < |cs| ensures !TakesExactly(cs[i], amount) {
        if TakesExactly(cs[i], amount) {
          assert TakesByTag(cs[i], TagOf(amount));
        }
      }
    }
  }

  /** Two takers of one tag and nobody asked for the amount: an operator must decide. */
  lemma SharedTagIsAmbiguous(txid: Txid, amount: int, cs: seq<Candidate>, a: nat, b: nat)
    requires a < b < |cs| && TagOf(amount) != 0 && TakesByTag(cs[a], TagOf(amount)) && TakesByTag(cs[b], TagOf(amount))
    requires forall i: nat | i < |cs| :: cs[i].txHash != Some(txid) && !TakesExactly(cs[i], amount)
    ensures MatchTransfer(txid, amount, cs) == Unmatched(AmbiguousTag)
  {
    ExactIff(txid, amount, cs);
    TwoMembers(TagOnes(cs, TagOf(amount)), a, b);
  }

  lemma TwoMembers(s: seq<nat>, a: nat, b: nat)
    requires a in s && b in s && a != b
    ensures |s| >= 2
  {
  }
}
