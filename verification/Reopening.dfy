/** What a late `markDelivering` does to the stock claim. It can bring a closed order back while a claim of
    that order is under way which has read an item that was released since. */
module Reopening {
  import opened Schema
  import opened Orders
  import opened Delivery
  import opened StockClaim

  predicate NoReopening(events: seq<Event>) {
    forall e | e in events :: !e.Reopen?
  }

  /** Nobody's claim goes by an overtaken read... */
  predicate Calm(s: Pool) {
    forall t | t in s.open :: !Endangers(s, t)
  }

  /** ... and nothing but a reopening changes that. */
  lemma CalmStep(s: Pool, e: Event)
    requires Inv(s) && Calm(s) && !e.Reopen?
    ensures Calm(Apply(s, e))
  {
    var s' := Step(s, e);
    forall t | t in s'.open ensures s'.open[t].order !in s'.closed ==> !Overtaken(s'.stock, s'.open[t]) {
      if t in s.open {
        CalmClaim(s, e, t);
      }
    }
    hide Inv, Overtaken, Dangers;
  }

  /** A claim that was there before: its order keeps what it has, or is closed. */
  lemma CalmClaim(s: Pool, e: Event, t: nat)
    requires Inv(s) && Calm(s) && !e.Reopen? && t in s.open && t in Step(s, e).open
    ensures !Endangers(Step(s, e), t)
  {
    hide Dangers, Conserves;
    var s', o := Step(s, e), s.open[t].order;
    assert TxOk(s.stock, s.open[t]) && !Endangers(s, t);
    if s.open[t].Holding? { assert s.open[t].item in Locked(s.open); }
    if o !in s.closed && !e.Close? {
      if e.Commit? && e.tx in s.open && s.open[e.tx].Holding? {
        assert TxOk(s.stock, s.open[e.tx]) && !Endangers(s, e.tx);
      }
      assert OwnsNone(s'.stock, o) ==> OwnsNone(s.stock, o) by {
        if i: Id :| i < |s.stock| && s.stock[i].order == Some(o) { assert s'.stock[i].order == Some(o); }
      }
    }
    if e.Close? && o != e.order {
      assert OwnsNone(s'.stock, o) ==> OwnsNone(s.stock, o) by {
        if i: Id :| i < |s.stock| && s.stock[i].order == Some(o) { assert s'.stock[i].order == Some(o); }
      }
    }
  }

  lemma {:induction false} CalmRun(s: Pool, events: seq<Event>)
    requires Inv(s) && Calm(s) && NoReopening(events)
    ensures Inv(Run(s, events)) && Calm(Run(s, events)) && Run(s, events).exposed == s.exposed
    decreases events
  {
    hide Step, Inv, Calm;
    if events != [] {
      StepKeeps(s, events[0]);
      CalmStep(s, events[0]);
      NoneInDanger(Apply(s, events[0]));
      assert Dangers(Step(s, events[0]).stock, Step(s, events[0]).open, Step(s, events[0]).closed) == {};
      CalmRun(Apply(s, events[0]), events[1..]);
    }
  }

  lemma NoneInDanger(s: Pool)
    ensures Calm(s) <==> Dangers(s.stock, s.open, s.closed) == {}
  {
    if t :| t in s.open && Endangers(s, t) {
      assert s.open[t].item in Dangers(s.stock, s.open, s.closed);
    }
  }

  lemma {:induction false} RunConcat(s: Pool, a: seq<Event>, b: seq<Event>)
    ensures Run(s, a + b) == Run(Run(s, a), b)
    decreases a
  {
    if a == [] {
      assert a + b == b;
    } else {
      assert (a + b)[1..] == a[1..] + b;
      RunConcat(Apply(s, a[0]), a[1..], b);
    }
  }

  lemma RunShort(s: Pool, a: Event, b: Event, c: Event)
    ensures Run(s, [a]) == Apply(s, a)
    ensures Run(s, [a, b]) == Apply(Apply(s, a), b)
    ensures Run(s, [a, b, c]) == Apply(Apply(Apply(s, a), b), c)
  {
    hide Apply;
    assert [a][1..] == [] && [b][1..] == [] && [c][1..] == [] && [a, b][1..] == [b] && [b, c][1..] == [c] && [a, b, c][1..] == [b, c];
    assert Run(Apply(s, a), [b]) == Apply(Apply(s, a), b);
    assert Run(Apply(Apply(s, a), b), [c]) == Apply(Apply(Apply(s, a), b), c);
    assert Run(Apply(s, a), [b, c]) == Apply(Apply(Apply(s, a), b), c);
  }

  lemma {:induction false} Unused(used: set<nat>) returns (n: nat)
    ensures n !in used && forall u | u in used :: u < n
  {
    if used == {} {
      n := 0;
    } else {
      var u :| u in used;
      n := Unused(used - {u});
      assert forall x | x in used :: x == u || x in used - {u};
      if n <= u { n := u + 1; }
    }
  }

  /** Runs `a` and `b` in which item `i` is SOLD and then SOLD to somebody else. */
  ghost predicate Steals(s: Pool, a: seq<Event>, b: seq<Event>, i: Id) {
    && NoReopening(a) && NoReopening(b)
    && var x, y := Run(s, a).stock, Run(Run(s, a), b).stock;
       i < |x| && i < |y| && x[i].status.Sold? && y[i] != x[i]
  }

  lemma StealsLater(s: Pool, first: seq<Event>, a: seq<Event>, b: seq<Event>, i: Id)
    requires NoReopening(first) && Steals(Run(s, first), a, b, i)
    ensures Steals(s, first + a, b, i)
  {
    RunConcat(s, first, a);
  }

  /** The claim goes on: it locks the item and takes it. */
  lemma Takes(s: Pool, t: nat)
    requires Endangers(s, t) && s.open[t].Found? && s.open[t].item !in Locked(s.open)
    ensures var i, s' := s.open[t].item, Run(s, [Lock(t), Commit(t)]);
            |s'.stock| == |s.stock| && i < |s.stock| && s'.stock[i].order == Some(s.open[t].order)
  {
    var locked := Apply(s, Lock(t));
    assert locked.open[t] == Holding(s.open[t].order, s.open[t].item, false) && locked.stock == s.stock;
    assert !OwnsAnother(s.stock, s.open[t].order, s.open[t].item);
    RunShort(s, Lock(t), Commit(t), Commit(t));
    assert locked.closed == s.closed && t in locked.open;
    hide Run, Dangers;
  }

  /** The order a reserved item belongs to asks for it. */
  lemma Asks(s: Pool, u: nat, i: Id)
    requires Inv(s) && i < |s.stock| && s.stock[i].status.Reserved? && u !in s.open && u !in s.won && u !in s.lost
    ensures var y := s.stock[i].order.value;
            var begun := Apply(s, Begin(u, y, 0));
            && y !in s.closed && !OwnsAnother(s.stock, y, i)
            && begun.open == s.open[u := Found(y, i)] && begun.stock == s.stock && begun.closed == s.closed
            && (i !in Locked(s.open) ==> i !in Locked(begun.open))
  {
    assert s.stock[i] in s.stock && OwnedItem(s.stock, s.stock[i].order.value) == Some(i);
    hide Dangers;
  }

  /** A reserved item that nobody holds is handed out to its order. */
  lemma Serves(s: Pool, u: nat, i: Id)
    requires Inv(s) && i < |s.stock| && s.stock[i].status.Reserved? && i !in Locked(s.open)
    requires u !in s.open && u !in s.won && u !in s.lost
    ensures var s' := Run(s, [Begin(u, s.stock[i].order.value, 0), Lock(u), Commit(u)]);
            && s'.stock == Sell(s.stock, i, s.stock[i].order.value) && s'.open == s.open && s'.closed == s.closed
  {
    var y := s.stock[i].order.value;
    Asks(s, u, i);
    RunShort(s, Begin(u, y, 0), Lock(u), Commit(u));
    hide Inv, Run, Dangers;
    var begun := Apply(s, Begin(u, y, 0));
    hide OwnedItem;
    var locked := Apply(begun, Lock(u));
    assert locked.open == s.open[u := Holding(y, i, false)] && locked.stock == s.stock && locked.closed == s.closed;
    var sold := Apply(locked, Commit(u));
    assert sold.open == s.open;
  }

  lemma SoldTheft(s: Pool, t: nat)
    requires Endangers(s, t) && s.open[t].Found? && s.open[t].item !in Locked(s.open) && s.stock[s.open[t].item].status.Sold?
    ensures Steals(s, [], [Lock(t), Commit(t)], s.open[t].item)
  {
    Takes(s, t);
  }

  lemma ReservedTheft(s: Pool, t: nat) returns (a: seq<Event>)
    requires Inv(s) && Endangers(s, t) && s.open[t].Found? && s.open[t].item !in Locked(s.open)
    requires s.stock[s.open[t].item].status.Reserved?
    ensures Steals(s, a, [Lock(t), Commit(t)], s.open[t].item)
  {
    var i := s.open[t].item;
    var u := Unused(s.open.Keys + s.won + s.lost);
    a := [Begin(u, s.stock[i].order.value, 0), Lock(u), Commit(u)];
    Serves(s, u, i);
    var sold := Run(s, a);
    assert Endangers(sold, t);
    hide Run, Inv, Step;
    SoldTheft(sold, t);
    assert a + [] == a;
    StealsLater(s, a, [], [Lock(t), Commit(t)], i);
  }

  lemma AvailableTheft(s: Pool, t: nat) returns (a: seq<Event>)
    requires Inv(s) && Endangers(s, t) && s.open[t].Found? && s.open[t].item !in Locked(s.open)
    requires s.stock[s.open[t].item].status.Available?
    ensures Steals(s, a, [Lock(t), Commit(t)], s.open[t].item)
  {
    var i, o := s.open[t].item, s.open[t].order;
    var owners := set j: Id | j < |s.stock| && s.stock[j].order.Some? :: s.stock[j].order.value;
    var y := Unused(owners + s.closed + {o});
    assert OwnedItem(s.stock, y).None?;
    var reserved := Apply(s, Reserve(i, y));
    StepKeeps(s, Reserve(i, y));
    assert reserved.stock == s.stock[i := s.stock[i].(status := Reserved, order := Some(y))] && reserved.open == s.open;
    assert [Reserve(i, y)][1..] == [] && Run(s, [Reserve(i, y)]) == reserved;
    assert Endangers(reserved, t);
    hide Run, Inv, Step, Apply;
    var rest := ReservedTheft(reserved, t);
    StealsLater(s, [Reserve(i, y)], rest, [Lock(t), Commit(t)], i);
    a := [Reserve(i, y)] + rest;
  }

  /** Whoever holds the item lets it go. */
  lemma FreedTheft(s: Pool, t: nat) returns (a: seq<Event>)
    requires Inv(s) && Endangers(s, t) && s.open[t].Found? && s.open[t].item !in Locked(s.open)
    ensures Steals(s, a, [Lock(t), Commit(t)], s.open[t].item)
  {
    match s.stock[s.open[t].item].status {
      case Available => a := AvailableTheft(s, t);
      case Reserved => a := ReservedTheft(s, t);
      case Sold => SoldTheft(s, t); a := [];
    }
  }

  lemma LockedTheft(s: Pool, t: nat) returns (a: seq<Event>)
    requires Inv(s) && Endangers(s, t) && s.open[t].Found?
    ensures Steals(s, a, [Lock(t), Commit(t)], s.open[t].item)
  {
    var i := s.open[t].item;
    if i !in Locked(s.open) {
      a := FreedTheft(s, t);
    } else {
      var v :| v in s.open && s.open[v].Holding? && s.open[v].item == i;
      var freed := Apply(s, Abort(v));
      StepKeeps(s, Abort(v));
      assert freed.stock == s.stock && freed.closed == s.closed && freed.open == s.open - {v};
      assert i !in Locked(freed.open);
      assert [Abort(v)][1..] == [] && Run(s, [Abort(v)]) == freed;
      assert Endangers(freed, t);
      hide Run, Inv, Step, Apply;
      var rest := FreedTheft(freed, t);
      StealsLater(s, [Abort(v)], rest, [Lock(t), Commit(t)], i);
      a := [Abort(v)] + rest;
    }
  }

  /** The item is locked already, and is reserved for another order, which has just asked for it. */
  lemma RobbedTheft(s: Pool, t: nat, u: nat) returns (a: seq<Event>)
    requires Inv(s) && Endangers(s, t) && s.open[t].Holding? && s.stock[s.open[t].item].status.Reserved?
    requires u !in s.open && u !in s.won && u !in s.lost
    ensures Steals(s, a, [Lock(u), Commit(u)], s.open[t].item)
  {
    var i, o := s.open[t].item, s.open[t].order;
    var y := s.stock[i].order.value;
    Asks(s, u, i);
    var begun := Apply(s, Begin(u, y, 0));
    RunShort(s, Begin(u, y, 0), Commit(t), Commit(t));
    assert TxOk(s.stock, s.open[t]) && !OwnsAnother(s.stock, o, i);
    hide Dangers, Run;
    var taken := Apply(begun, Commit(t));
    assert taken.stock == Sell(s.stock, i, o) && taken.open == begun.open - {t} && taken.closed == s.closed;
    assert i !in Locked(taken.open) && Endangers(taken, u);
    hide Inv, Step, Apply;
    SoldTheft(taken, u);
    a := [Begin(u, y, 0), Commit(t)];
    assert a + [] == a;
    StealsLater(s, a, [], [Lock(u), Commit(u)], i);
  }

  lemma HeldTheft(s: Pool, t: nat) returns (a: seq<Event>, b: seq<Event>)
    requires Inv(s) && Endangers(s, t) && s.open[t].Holding?
    ensures Steals(s, a, b, s.open[t].item)
  {
    var i, o := s.open[t].item, s.open[t].order;
    assert TxOk(s.stock, s.open[t]) && !OwnsAnother(s.stock, o, i);
    if s.stock[i].status.Sold? {
      a, b := [], [Commit(t)];
      RunShort(s, Commit(t), Commit(t), Commit(t));
      hide Inv, Dangers;
    } else {
      var u := Unused(s.open.Keys + s.won + s.lost);
      a := RobbedTheft(s, t, u);
      b := [Lock(u), Commit(u)];
    }
  }

  /** A late markDelivering lands on order `o` where nothing was in danger: from there on, whatever is claimed,
      reserved, closed or deleted, every SOLD item stays with its order, if and only if the write finds no
      claim of the order that goes by an overtaken read. */
  lemma ReopenIff(s: Pool, o: Id)
    requires Inv(s) && s.exposed == {}
    ensures var s' := Apply(s, Reopen(o));
            (forall a, b, i :: !Steals(s', a, b, i)) <==> (forall t | t in s.open && s.open[t].order == o :: !Overtaken(s.stock, s.open[t]))
  {
    var s' := Apply(s, Reopen(o));
    StepKeeps(s, Reopen(o));
    assert s'.stock == s.stock && s'.open == s.open && s'.closed == s.closed - {o};
    NoneInDanger(s);
    assert Calm(s') <==> forall t | t in s.open && s.open[t].order == o :: !Overtaken(s.stock, s.open[t]);
    NoneInDanger(s');
    hide Step, Apply, Overtaken, Dangers;
    if Calm(s') {
      forall a, b, i ensures !Steals(s', a, b, i) {
        if NoReopening(a) && NoReopening(b) {
          CalmRun(s', a);
          CalmRun(Run(s', a), b);
          RunKeeps(Run(s', a), b);
        }
      }
    } else {
      var t :| t in s'.open && Endangers(s', t);
      if s'.open[t].Found? {
        var a := LockedTheft(s', t);
      } else {
        var a, b := HeldTheft(s', t);
      }
    }
  }

  /** Without a reopening nothing is ever exposed, so nothing handed out is ever taken back. */
  lemma OnlyReopeningsExpose(stock: seq<StockItem>, events: seq<Event>)
    requires OneOwner(stock) && (forall i: Id | i < |stock| :: !stock[i].status.Reserved?) && NoReopening(events)
    ensures Run(Start(stock), events).exposed == {}
  {
    CalmRun(Start(stock), events);
  }

  const ITEM := StockItem(0, "secret", Available, None)

  /** How it breaks: order 7 has item 0 reserved and its delivery has read that; the order is closed, which
      releases the item, and order 8 is handed it; a late markDelivering brings order 7 back, and its
      delivery goes on by what it read. One credential, two buyers. */
  lemma ReopenedHandsOutTwice()
    ensures var before := [Reserve(0, 7), Begin(0, 7, 0), Close(7)] + [Begin(1, 8, 0), Lock(1), Commit(1)];
            var after := [Reopen(7), Lock(0), Commit(0)];
            var a, b := Run(Start([ITEM]), before), Run(Run(Start([ITEM]), before), after);
            && a.stock == [ITEM.(status := Sold, order := Some(8))] && a.exposed == {}
            && b.stock == [ITEM.(status := Sold, order := Some(7))] && b.exposed == {0}
  {
    var closed, sold := Abandoned(), Resold();
    AbandonedRun();
    ResoldRun();
    RunConcat(Start([ITEM]), [Reserve(0, 7), Begin(0, 7, 0), Close(7)], [Begin(1, 8, 0), Lock(1), Commit(1)]);
    TwiceRun();
    hide Run;
  }

  function Abandoned(): Pool {
    Pool([ITEM], {7}, map[0 := Found(7, 0)], {}, {}, {})
  }

  function Resold(): Pool {
    Pool([ITEM.(status := Sold, order := Some(8))], {7}, map[0 := Found(7, 0)], {1}, {}, {})
  }

  lemma AbandonedRun()
    ensures Run(Start([ITEM]), [Reserve(0, 7), Begin(0, 7, 0), Close(7)]) == Abandoned()
  {
    RunShort(Start([ITEM]), Reserve(0, 7), Begin(0, 7, 0), Close(7));
    var kept := ITEM.(status := Reserved, order := Some(7));
    assert [ITEM][0 := kept] == [kept] && ReleaseReserved([kept], 7) == [ITEM];
    assert Apply(Start([ITEM]), Reserve(0, 7)) == Pool([kept], {}, map[], {}, {}, {});
    assert kept in [kept] && OwnedItem([kept], 7) == Some(0);
    assert Apply(Pool([kept], {}, map[], {}, {}, {}), Begin(0, 7, 0)) == Pool([kept], {}, map[0 := Found(7, 0)], {}, {}, {});
    hide Run;
  }

  lemma ResoldRun()
    ensures Run(Abandoned(), [Begin(1, 8, 0), Lock(1), Commit(1)]) == Resold()
  {
    RunShort(Abandoned(), Begin(1, 8, 0), Lock(1), Commit(1));
    ResoldLocked();
    ResoldCommitted();
    hide Run, Apply;
  }

  function RivalHolds(): Pool {
    Abandoned().(open := map[0 := Found(7, 0), 1 := Holding(8, 0, true)])
  }

  lemma ResoldLocked()
    ensures Apply(Apply(Abandoned(), Begin(1, 8, 0)), Lock(1)) == RivalHolds()
  {
    var begun := Abandoned().(open := map[0 := Found(7, 0), 1 := Seeking(8, 0)]);
    assert Dangers([ITEM], begun.open, {7}) == {};
    assert Apply(Abandoned(), Begin(1, 8, 0)) == begun;
    assert [ITEM][..0] == [] && FirstAvailable([ITEM], 0, {}) == Some(0);
    assert begun.open[1 := Holding(8, 0, true)] == RivalHolds().open;
    assert Dangers([ITEM], RivalHolds().open, {7}) == {};
    hide Dangers;
  }

  lemma ResoldCommitted()
    ensures Apply(RivalHolds(), Commit(1)) == Resold()
  {
    assert !OwnsAnother([ITEM], 8, 0) && Sell([ITEM], 0, 8) == Resold().stock;
    assert RivalHolds().open - {1} == map[0 := Found(7, 0)];
    assert Dangers(Resold().stock, Resold().open, {7}) == {};
    hide Dangers, OwnsAnother;
  }

  lemma TwiceRun()
    ensures var b := Run(Resold(), [Reopen(7), Lock(0), Commit(0)]);
            b.stock == [ITEM.(status := Sold, order := Some(7))] && b.exposed == {0}
  {
    RunShort(Resold(), Reopen(7), Lock(0), Commit(0));
    var stock := Resold().stock;
    var reopened := Resold().(closed := {}, exposed := {0});
    var locked := reopened.(open := map[0 := Holding(7, 0, false)]);
    assert Overtaken(stock, Found(7, 0));
    assert Dangers(stock, Resold().open, {}) == {0};
    assert Apply(Resold(), Reopen(7)) == reopened;
    assert Apply(reopened, Lock(0)) == locked;
    assert !OwnsAnother(stock, 7, 0) && Sell(stock, 0, 7) == [ITEM.(status := Sold, order := Some(7))];
    hide Run;
  }
}
