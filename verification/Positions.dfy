/** What holds of linked orders between execution windows. */
module Positions {
  import opened Linked
  import opened Handlers
  import opened Contingent
  import opened Legs
  import opened Windows

  /** What became of the exits of an entry, over the ids up to n: still open, filled by a target,
      triggered as a loss, or cancelled. */
  function Accounted(s: State, e: nat, n: nat): nat {
    if n == 0 then 0
    else Accounted(s, e, n - 1) + if n in s.exits && s.exits[n].entry == e then
      OpenExit(s, n) + s.exits[n].filled + s.exits[n].lost + s.exits[n].cancelled else 0
  }

  lemma {:induction false} AccountedOpened(s: State, e: nat, n: nat)
    requires Booked(s, 0, 0) && 0 !in s.exits
    ensures Accounted(s, e, n) == OpenedFor(s.exits, e, n)
  {
    if n > 0 {
      AccountedOpened(s, e, n - 1);
    }
  }

  /** The exits of a bracket track its position: what an entry has been filled is open, was
      filled by a target, triggered as a loss or cancelled. */
  lemma PositionTracked(o: LinkedBook, e: nat)
    requires o.Idle() && e in o.fills
    ensures o.fills[e] == Accounted(o.S(), e, o.lastId)
  {
    AccountedOpened(o.S(), e, o.lastId);
  }

  /** Between windows open exits rest, as a target and a loss order of the same size. */
  lemma ExitsRest(o: LinkedBook, t: nat)
    requires o.Idle() && t in o.exits && OpenExit(o.S(), t) > 0
    ensures t in o.orders && o.orders[t].cond.Exit? && !o.orders[t].stop && OpenExit(o.S(), t) == o.orders[t].sz
    ensures var l := o.orders[t].cond.partner;
      l in o.orders && o.orders[l] == Order(true, o.orders[t].sz, Exit(t))
  {
    hide Exclusive, Active, Positioned, Numbered;
  }

  /** Links are symmetric: the partner of a linked order rests and links back. */
  lemma LinksSymmetric(o: LinkedBook, id: nat)
    requires o.Idle() && id in o.orders && (o.orders[id].cond.Oco? || o.orders[id].cond.Exit?)
    ensures var p := o.orders[id].cond.partner;
      p != id && p in o.orders && o.orders[p].cond == o.orders[id].cond.(partner := id)
  {
    hide Exclusive, Active, Positioned, Numbered, Booked;
  }

  /** Of a one-cancels-other pair entered for partial fills at most one order ever trades or is
      triggered, unless the first was while the second entered. */
  lemma OneCancelsOther(o: LinkedBook, a: nat, b: nat)
    requires o.Idle() && (a, b) in o.pairs
    ensures (a in o.touched && b in o.touched) <==> (a, b) in o.spoilt
    ensures (a, b) !in o.spoilt && a in o.touched ==> b !in o.orders
    ensures (a, b) !in o.spoilt && b in o.touched ==> a !in o.orders
  {
    hide Symmetric, Active, Positioned, Numbered, Booked;
    assert Guarded(o.orders, o.touched, (a, b).0, (a, b).1) || (a, b) in o.spoilt;
  }

  /** Target fills shrink both exits, further fills of the entry make both grow. */
  lemma ExitsFollow(s: State, e: nat, t: nat, target: nat, more: nat)
    requires Inv(s, 0, 0) && e in s.orders && s.orders[e].cond.Entry? && s.orders[e].cond.target == t && t != 0
    requires t in s.orders && 0 < target < s.orders[t].sz && 0 < more <= s.orders[e].sz
    ensures CanHit(s, t, target) && CanHit(Hit(s, t, target), e, more)
    ensures var l := s.orders[e].cond.loss;
      var s' := Hit(Hit(s, t, target), e, more);
      && t in s'.orders && s'.orders[t].sz == s.orders[t].sz - target + more
      && l in s'.orders && s'.orders[l].sz == s.orders[t].sz - target + more
  {
    var l := s.orders[e].cond.loss;
    assert s.orders[t].cond == Exit(l) && t in s.exits;
    HitFills(s, t, l, target);
    var s1 := Hit(s, t, target);
    assert s1.orders[e] == s.orders[e];
    HitGrows(s1, e, more);
  }

  /** A leg fires at most once; it has fired if and only if it traded or was triggered, to the last
      unit if it needs a full fill; and until then it waits for as long as it rests. */
  lemma FiresOnce(o: LinkedBook, leg: nat)
    requires o.Idle() && leg in o.legs
    ensures multiset(o.fired)[leg] <= 1
    ensures leg in o.fired <==> if o.legs[leg] then leg in o.done else leg in o.touched
    ensures leg !in o.fired && leg in o.orders ==> o.orders[leg].cond.Oto? && o.orders[leg].cond.full == o.legs[leg]
  {
    hide Inv;
    CountOnce(o.fired, leg);
  }

  lemma {:induction false} CountOnce(ids: seq<nat>, x: nat)
    requires Distinct(ids)
    ensures multiset(ids)[x] <= 1 && (x in ids <==> multiset(ids)[x] == 1)
  {
    if ids != [] {
      var n := |ids| - 1;
      assert ids == ids[..n] + [ids[n]];
      CountOnce(ids[..n], x);
    }
  }

  /** One execution window: a request, and every order it gives rise to. What it leaves is a function
      of what there was, of the request and of what the engine answers. */
  method Window(o: LinkedBook, a: Ask, engine: nat -> Call) returns (found: bool, thrown: bool)
    requires o.Idle() && Asks(a)
    modifies o
    ensures o.Idle() && Turn(o.S(), thrown) == Windowed(old(o.S()), a, engine)
    ensures found <==> a.Enter? || a.id in old(o.orders)
    ensures !found ==> o.S() == old(o.S())
    ensures !thrown && !PullsBracket(old(o.S()), a) ==> Kept(old(o.S()), o.S())
  {
    hide LinkedBook.Idle, Inv, Legged, Withdrawn, Requested, Settled, Kept;
    Rested(o);
    WindowedOk(o.S(), a, engine);
    found, thrown := true, false;
    if !a.Enter? {
      found := o.PullOrder(a.id);
      if !found || a.Pull? {
        StillIdle(o);
        return;
      }
    }
    thrown := EnterOrders(o, a.r, engine);
  }

  lemma StillIdle(o: LinkedBook)
    requires Inv(o.S(), 0, 0) && Legged(o.S()) && o.queue == []
    ensures o.Idle()
  {
  }

  lemma Rested(o: LinkedBook)
    requires o.Idle()
    ensures Inv(o.S(), 0, 0) && Legged(o.S()) && o.queue == [] && Windows.Idle(o.S())
  {
  }

  /** The orders of a request enter, and every order they give rise to. */
  method EnterOrders(o: LinkedBook, r: Request, engine: nat -> Call) returns (thrown: bool)
    requires Inv(o.S(), 0, 0) && Legged(o.S()) && Sound(r)
    modifies o
    ensures o.Idle() && Turn(o.S(), thrown) == Settled(Requested(old(o.S()), r, engine), engine)
  {
    hide LinkedBook.Idle, Inv, Requested, Drained, Legged, Potential;
    RequestedOk(o.S(), r, engine);
    thrown := EnterRequest(o, r, engine);
    if thrown {
      o.ClearQueue();
    } else {
      thrown := o.RunQueue(engine, 2);
    }
  }

  method EnterRequest(o: LinkedBook, r: Request, engine: nat -> Call) returns (thrown: bool)
    requires Inv(o.S(), 0, 0) && Legged(o.S()) && Sound(r)
    modifies o
    ensures Turn(o.S(), thrown) == Requested(old(o.S()), r, engine)
  {
    hide LinkedBook.Idle, Inv, Fresh, Injected, OcoEntered, OtoEntered, EntryEntered, Spoils, Legged;
    var id;
    match r {
      case Basics(terms) =>
        var filled;
        id := o.GenerateId();
        filled, thrown := o.InjectOrder(id, terms, engine(0));
      case OneCancels(first, second, full) => id, thrown := o.InsertOco(first, second, full, engine(0), engine(1));
      case OneTriggers(leg, next, full) => id, thrown := o.InsertOto(leg, next, full, engine(0));
      case Bracket(sz) =>
        id := o.InsertBracket(sz, engine(0));
        thrown := false;
    }
  }

  /** Windows one after the other leave what their functions say. */
  method Session(asks: seq<Ask>, engine: nat -> nat -> Call) returns (o: LinkedBook)
    requires forall a :: a in asks ==> Asks(a)
    ensures fresh(o) && o.Idle() && o.S() == Ran(asks, engine)
  {
    hide LinkedBook.Idle, Windowed, Kept, PullsBracket;
    o := new LinkedBook();
    assert asks[..0] == [];
    for i := 0 to |asks|
      invariant fresh(o) && o.Idle() && o.S() == Ran(asks[..i], engine)
    {
      assert asks[..i + 1][..i] == asks[..i] && asks[i] in asks;
      var found, thrown := Window(o, asks[i], engine(i));
    }
    assert asks[..|asks|] == asks;
  }

  /** In a session without exceptions and without pulls of exits nothing of a position is cancelled:
      what an entry was filled rests as exits, was filled by targets or triggered as losses. */
  lemma PositionKept(asks: seq<Ask>, engine: nat -> nat -> Call, e: nat)
    requires (forall a :: a in asks ==> Asks(a)) && Calm(asks, engine)
    ensures var s := Ran(asks, engine);
      e in s.fills ==> s.fills[e] == Exited(s, e, s.lastId)
  {
    RanIdle(asks, engine);
    var s := Ran(asks, engine);
    hide Calm, Ran, Legged, Symmetric, Exclusive, Active;
    if e in s.fills {
      AccountedOpened(s, e, s.lastId);
      ExitedAll(s, e, s.lastId);
    }
  }

  /** What became of the exits of an entry, over the ids up to n, cancelled ones aside. */
  function Exited(s: State, e: nat, n: nat): nat {
    if n == 0 then 0
    else Exited(s, e, n - 1) + if n in s.exits && s.exits[n].entry == e then
      Resting(s, n) + s.exits[n].filled + s.exits[n].lost else 0
  }

  lemma {:induction false} ExitedAll(s: State, e: nat, n: nat)
    requires s.queue == [] && forall t :: t in s.exits ==> s.exits[t].cancelled == 0
    ensures Exited(s, e, n) == Accounted(s, e, n)
  {
    if n > 0 {
      ExitedAll(s, e, n - 1);
    }
  }
}
