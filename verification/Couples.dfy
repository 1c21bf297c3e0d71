/** Linked orders two by two: which of them enters, what they are linked by, and what a fill, a trigger or
    a pull of one does to the other, with partial and with full fills. */
module Couples {
  import opened Linked
  import opened Routing
  import opened Contingent
  import opened Legs

  /** id has met the condition of its pair: it was filled to the last unit or triggered, if that needs a
      full fill; otherwise it traded at all or was triggered. */
  predicate Satisfied(s: State, id: nat, full: bool) {
    if full then id in s.done else id in s.touched
  }

  lemma EntersSatisfied(s: State, terms: Terms, full: bool, c: Call)
    requires Inv(s, 0, 0) && Legged(s) && terms.sz > 0
    ensures var i := Injected(NewId(s), s.lastId + 1, terms, c);
      Satisfied(i.s, s.lastId + 1, full) <==> i.filled > 0 && (i.filled == terms.sz || !full)
  {
    hide Inv, Legged, Injected, NotQueued;
    LegEnters(s, terms, c);
  }

  /** r comes of a second order entering at s, the first being id1. If it meets its condition on entry,
      the first is gone; if not, and both rest, each is linked to the other, with whether that needs a full
      fill; and if they cannot be linked the source throws. */
  predicate Coupled(s: State, id1: nat, second: Terms, full: bool, c: Call, r: Entered) {
    var id2 := s.lastId + 1;
    var i := Injected(NewId(s), id2, second, c);
    && r.s.lastId >= id2 && r.s.lastId == i.s.lastId && r.s.queue == i.s.queue && r.s.touched == i.s.touched
    && r.s.orders - {id1, id2} == i.s.orders - {id1, id2}
    && if Satisfied(i.s, id2, full) then
         && !r.thrown && id1 !in r.s.orders
         && (id2 in r.s.orders <==> i.filled < second.sz)
         && (id2 in r.s.orders ==> r.s.orders[id2] == Order(second.kind.Stop?, second.sz - i.filled, Free))
       else if id1 in i.s.orders then
         && !r.thrown && id1 in r.s.orders && id2 in r.s.orders
         && r.s.orders[id1] == i.s.orders[id1].(cond := Oco(id2, full))
         && r.s.orders[id2] == Order(second.kind.Stop?, second.sz - i.filled, Oco(id1, full))
       else r.thrown
  }

  lemma SecondCouples(s: State, id1: nat, second: Terms, full: bool, c: Call)
    requires Inv(s, 0, 0) && Legged(s) && second.sz > 0 && !second.kind.Market? && id1 <= s.lastId
    ensures Coupled(s, id1, second, full, c, SecondEntered(s, id1, second, full, c))
  {
    hide Inv, Legged, Injected, NotQueued, Unpaired, Satisfied, Potential, After, Fresh;
    var id2 := s.lastId + 1;
    EntersSatisfied(s, second, full, c);
    LegEnters(s, second, c);
    NewIdOk(s, 0, 0);
    InjectedOk(NewId(s), id2, second, c);
  }

  /** A pair enters. The second order is given an id, and entered, if and only if the first has not met its
      condition on entry. */
  lemma PairEnters(s: State, first: Terms, second: Terms, full: bool, c1: Call, c2: Call)
    requires Inv(s, 0, 0) && Legged(s)
    requires first.sz > 0 && second.sz > 0 && !first.kind.Market? && !second.kind.Market?
    ensures var r := OcoEntered(s, first, second, full, c1, c2);
      var id1 := s.lastId + 1;
      var i1 := Injected(NewId(s), id1, first, c1);
      if Satisfied(i1.s, id1, full) then r == Entered(i1.s, id1, false) && r.s.lastId < i1.s.lastId + 1
      else Coupled(i1.s, id1, second, full, c2, r)
  {
    hide Inv, Legged, Injected, NotQueued, Unpaired, Satisfied, Potential, After, Fresh, Coupled, SecondEntered;
    var id1 := s.lastId + 1;
    var i1 := Injected(NewId(s), id1, first, c1);
    EntersSatisfied(s, first, full, c1);
    LegEnters(s, first, c1);
    NewIdOk(s, 0, 0);
    InjectedOk(NewId(s), id1, first, c1);
    if !Satisfied(i1.s, id1, full) {
      SecondCouples(i1.s, id1, second, full, c2);
    }
  }

  /** A sell of 4 rests. A pair that needs a full fill enters, a buy of 10 that hits it and a sell of 5: not
      all of the buy is filled, so the sell enters too, and what is left of both is linked. */
  lemma FullPair(s: State)
    requires s.lastId == 1 && s.orders == map[1 := Order(false, 4, Free)]
    ensures var r := OcoEntered(s, Terms(Limit, 10), Terms(Limit, 5), true, Call([(1, 4)], []), Call([], []));
      !r.thrown && r.s.orders == map[2 := Order(false, 6, Oco(3, true)), 3 := Order(false, 5, Oco(2, true))]
  {
    FourHit(s);
    hide Injected;
    var i := Injected(NewId(s), 2, Terms(Limit, 10), Call([(1, 4)], []));
    NothingHit(i.s);
  }

  lemma FourHit(s: State)
    requires s.lastId == 1 && s.orders == map[1 := Order(false, 4, Free)]
    ensures var i := Injected(NewId(s), 2, Terms(Limit, 10), Call([(1, 4)], []));
      i.filled == 4 && i.s.lastId == 2 && i.s.orders == map[2 := Order(false, 6, Free)]
  {
    var c := Call([(1, 4)], []);
    var s1 := NewId(s);
    var g := Hit(s1, 1, 4);
    assert g.orders == map[] && g.lastId == 2;
    hide Hit;
    assert c.hits[1..] == [];
    assert RoutedHits(g, 6, []) == (g, 0);
    assert RoutedHits(s1, 10, c.hits) == (g, 4);
  }

  lemma NothingHit(s: State)
    requires s.lastId == 2 && s.orders == map[2 := Order(false, 6, Free)]
    ensures var i := Injected(NewId(s), 3, Terms(Limit, 5), Call([], []));
      && i.filled == 0 && i.s.lastId == 3
      && i.s.orders == map[2 := Order(false, 6, Free), 3 := Order(false, 5, Free)]
  {
  }

  /* ---- what befalls one of two linked orders ---- */

  /** x is in s' as it is in s. */
  predicate Same(s: State, s': State, x: nat) {
    (x in s'.orders <==> x in s.orders) && (x in s.orders ==> s'.orders[x] == s.orders[x])
  }

  /** A fill that does not meet the condition of a pair only shrinks the order; one that does pulls its
      partner, and leaves it linked to nothing. */
  lemma HitPair(s: State, id: nat, amount: nat)
    requires Symmetric(s.orders) && CanHit(s, id, amount) && s.orders[id].cond.Oco?
    ensures var o, s' := s.orders[id], Hit(s, id, amount);
      var p := o.cond.partner;
      && p in s.orders && (forall x :: x != id && x != p ==> Same(s, s', x))
      && (id in s'.orders <==> amount < o.sz) && s'.queue == s.queue
      && if o.cond.full && amount < o.sz then Same(s, s', p) && s'.orders[id] == o.(sz := o.sz - amount)
         else p !in s'.orders && (amount < o.sz ==> s'.orders[id] == Order(o.stop, o.sz - amount, Free))
  {
  }

  /** Fills of an exit shrink its partner by as much, which is gone when all is filled; the account of
      the pair has it. */
  lemma HitExit(s: State, id: nat, amount: nat)
    requires Symmetric(s.orders) && CanHit(s, id, amount) && s.orders[id].cond.Exit? && id in s.exits
    ensures var o, s' := s.orders[id], Hit(s, id, amount);
      var p := o.cond.partner;
      && p in s.orders && (forall x :: x != id && x != p ==> Same(s, s', x))
      && s'.exits == s.exits[id := s.exits[id].(filled := s.exits[id].filled + amount)]
      && if amount == o.sz then id !in s'.orders && p !in s'.orders
         else s'.orders[id] == o.(sz := o.sz - amount) && s'.orders[p] == s.orders[p].(sz := o.sz - amount)
  {
  }

  /** A triggered stop pulls its partner, whatever the condition, and comes back as the next order queued. */
  lemma SpringPair(s: State, id: nat, market: bool)
    requires Symmetric(s.orders) && CanTrigger(s, id) && (s.orders[id].cond.Oco? || s.orders[id].cond.Exit?)
    ensures var o, s' := s.orders[id], Triggered(s, id, market);
      var p := o.cond.partner;
      && p in s.orders && id !in s'.orders && p !in s'.orders
      && (forall x :: x != id && x != p ==> Same(s, s', x))
      && s'.queue == s.queue + [Basic(s.lastId + 1, Terms(if market then Market else Limit, o.sz))]
      && (o.cond.Exit? && p in s.exits ==> s'.exits == s.exits[p := s.exits[p].(lost := s.exits[p].lost + o.sz)])
  {
  }

  /** A pull takes both, whatever the condition, and no one else. */
  lemma PullPair(s: State, id: nat)
    requires Inv(s, 0, 0) && id in s.orders && (s.orders[id].cond.Oco? || s.orders[id].cond.Exit?)
    ensures var p, s' := s.orders[id].cond.partner, Withdrawn(s, id);
      && p in s.orders && id !in s'.orders && p !in s'.orders && (forall x :: x != id && x != p ==> Same(s, s', x))
  {
    hide Exclusive, Active, Positioned, Numbered, OpenExit;
  }
}
