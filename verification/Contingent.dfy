/** Linked orders entering the book, and the window they are entered in. */
module Contingent {
  import opened Linked
  import opened Routing

  /** id was given out and is not used for anything yet. */
  ghost predicate Fresh(s: State, id: nat) {
    && 0 < id <= s.lastId && id !in s.orders && id !in s.touched && id !in s.exits && id !in s.fills
    && Unpaired(s, id) && NotQueued(s, id)
  }

  lemma FreshOnward(s: State, s': State, id: nat)
    requires Fresh(s, id) && Onward(s, s')
    ensures Fresh(s', id)
  {
  }

  function NewId(s: State): State {
    s.(lastId := s.lastId + 1)
  }

  lemma NewIdOk(s: State, w: nat, left: nat)
    requires Inv(s, w, left)
    ensures var s' := NewId(s); Inv(s', w, left) && Potential(s') == Potential(s) && Fresh(s', s'.lastId)
  {
    ExitIds(s);
    WeightMore(s.orders, s.lastId, s.lastId + 1);
    MoreExclusive(s.orders, s.touched, s.pairs, s.spoilt, s.lastId, s.lastId + 1);
    hide Symmetric, Exclusive, Booked, Active, Positioned;
    assert Numbered(NewId(s)) && Fresh(NewId(s), s.lastId + 1);
    hide Numbered;
    SameActive1(s);
    SameActive(s, NewId(s));
    SamePositioned(s, NewId(s));
    NewIdBooked(s, w, left);
  }

  lemma NewIdBooked(s: State, w: nat, left: nat)
    requires Booked(s, w, left)
    ensures Booked(NewId(s), w, left)
  {
  }

  /** An order without a condition comes to rest. */
  function Rest(s: State, id: nat, o: Order): State {
    s.(orders := s.orders[id := o])
  }

  lemma RestOk(s: State, id: nat, o: Order, w: nat, left: nat)
    requires Inv(s, w, left) && 0 < id <= s.lastId && id !in s.orders && id !in s.exits && id !in s.fills
      && NotQueued(s, id)
    requires o.cond.Free? && o.sz > 0 && Unpaired(s, id)
    ensures Inv(Rest(s, id, o), w, left) && Potential(Rest(s, id, o)) == Potential(s) + Weight(o)
  {
    WeightSet(s.orders, s.lastId, id, o);
    hide Symmetric, Exclusive, Booked, Active, Positioned, Numbered;
    RestLinks(s, id, o);
    RestBooked(s, id, o, w, left);
    RestActive(s, id, o);
  }

  lemma RestLinks(s: State, id: nat, o: Order)
    requires Symmetric(s.orders) && Numbered(s) && Exclusive(s.orders, s.touched, s.pairs, s.spoilt, s.lastId)
    requires id !in s.orders && 0 < id <= s.lastId && o.cond.Free? && o.sz > 0 && Unpaired(s, id) && NotQueued(s, id)
    ensures var s' := Rest(s, id, o);
      && Symmetric(s'.orders) && Numbered(s')
      && Exclusive(s'.orders, s'.touched, s'.pairs, s'.spoilt, s'.lastId)
  {
  }

  lemma RestBooked(s: State, id: nat, o: Order, w: nat, left: nat)
    requires Booked(s, w, left) && id !in s.orders && id !in s.exits && o.cond.Free?
    ensures Booked(Rest(s, id, o), w, left)
  {
  }

  lemma RestActive(s: State, id: nat, o: Order)
    requires Active(s) && Positioned(s) && id !in s.orders && id !in s.exits && id !in s.fills && o.cond.Free?
    ensures Active(Rest(s, id, o)) && Positioned(Rest(s, id, o))
  {
  }

  lemma TakerOk(s: State, id: nat, w: nat, left: nat)
    requires Inv(s, w, left) && 0 < id <= s.lastId && NotQueued(s, id) && Unpaired(s, id)
    ensures Inv(Touch(s, id), w, left) && Potential(Touch(s, id)) == Potential(s)
  {
    hide Symmetric, Active, Positioned;
    TakerBooked(s, id, w, left);
    TakerRest(s, id);
  }

  lemma TakerBooked(s: State, id: nat, w: nat, left: nat)
    requires Booked(s, w, left)
    ensures Booked(Touch(s, id), w, left)
  {
  }

  lemma TakerRest(s: State, id: nat)
    requires Active(s) && Positioned(s)
    ensures Active(Touch(s, id)) && Positioned(Touch(s, id))
  {
  }

  /** A basic order is matched and rests, or throws for want of liquidity. */
  datatype Injection = Injection(s: State, filled: nat, thrown: bool)

  function Injected(s: State, id: nat, terms: Terms, call: Call): Injection {
    if terms.kind.Stop? then Injection(Rest(s, id, Order(true, terms.sz, Free)), 0, false)
    else
      var r := Taken(s, id, terms.sz, call);
      if r.1 == terms.sz then Injection(r.0, r.1, false)
      else if terms.kind.Market? then Injection(r.0, r.1, true)
      else Injection(Rest(r.0, id, Order(false, terms.sz - r.1, Free)), r.1, false)
  }

  /** An incoming order is matched, and touched if it trades. */
  function Taken(s: State, id: nat, sz: nat, call: Call): (r: (State, nat))
    ensures r.1 <= sz
  {
    var r := Routed(s, sz, call);
    (if r.1 > 0 then Finished(Touch(r.0, id), id, r.1 == sz) else r.0, r.1)
  }

  /** What a stop brings along when it comes to rest. */
  function StopWeight(terms: Terms): nat {
    if terms.kind.Stop? then 2 else 0
  }

  lemma InjectedOk(s: State, id: nat, terms: Terms, call: Call)
    requires Inv(s, 0, 0) && Fresh(s, id) && terms.sz > 0
    ensures var r := Injected(s, id, terms, call);
      && Inv(r.s, 0, 0) && Potential(r.s) <= Potential(s) + StopWeight(terms) && r.filled <= terms.sz
      && After(s, r.s, id) && (r.filled == 0 && !r.thrown ==>
        r.s == Rest(s, id, Order(terms.kind.Stop?, terms.sz, Free)))
      && (!r.thrown && r.filled < terms.sz ==>
        id in r.s.orders && r.s.orders[id] == Order(terms.kind.Stop?, terms.sz - r.filled, Free))
      && (r.filled > 0 <==> id in r.s.touched) && (r.filled == terms.sz ==> id !in r.s.orders)
      && (r.thrown ==> terms.kind.Market?)
  {
    hide Inv, Potential, Routed, Onward;
    OnwardSelf(s);
    if terms.kind.Stop? {
      RestOk(s, id, Order(true, terms.sz, Free), 0, 0);
      AfterRest(s, s, id, Order(true, terms.sz, Free));
    } else {
      var r := Routed(s, terms.sz, call);
      RoutedOk(s, terms.sz, call, 0, 0);
      FreshOnward(s, r.0, id);
      var s1 := if r.1 > 0 then Finished(Touch(r.0, id), id, r.1 == terms.sz) else r.0;
      if r.1 > 0 {
        TakerOk(r.0, id, 0, 0);
        NotedOk(Touch(r.0, id), r.0.done + {id}, r.0.legs, r.0.fired, 0, 0);
      }
      if r.1 < terms.sz && !terms.kind.Market? {
        RestOk(s1, id, Order(false, terms.sz - r.1, Free), 0, 0);
      }
      AfterTaken(s, r.0, s1, Injected(s, id, terms, call).s, id);
    }
  }

  /** Besides what matching does, only id may be touched or come to rest. */
  ghost predicate After(s: State, s': State, id: nat) {
    && s'.orders.Keys <= s.orders.Keys + {id} && s.touched <= s'.touched && s.lastId <= s'.lastId
    && s'.pairs == s.pairs && s'.spoilt == s.spoilt
    && (forall x :: x in s.orders && x != id && s.orders[x].cond.Free? && x !in s'.touched ==>
      x in s'.orders && s'.orders[x] == s.orders[x])
    && (forall x :: x in s'.orders && x != id && s.orders[x].cond.Free? ==> s'.orders[x].cond.Free?)
    && (forall x :: x in s'.touched && x !in s.touched ==> x in s.orders || x == id)
    && id !in s'.fills && id !in s'.exits && NotQueued(s', id)
    && (forall x :: x in s'.fills && x !in s.fills ==> x in s.orders)
    && (forall x :: x in s'.exits && x !in s.exits ==> x > s.lastId)
    && (forall i :: 0 <= i < |s'.queue| ==> s'.queue[i] in s.queue || s'.queue[i].id > s.lastId)
  }

  lemma AfterRest(s: State, s': State, id: nat, o: Order)
    requires Fresh(s, id) && Onward(s, s')
    ensures After(s, Rest(s', id, o), id)
  {
  }

  lemma AfterTaken(s: State, r: State, s1: State, s': State, id: nat)
    requires Fresh(s, id) && Onward(s, r) && (s1 == r || s1 == Touch(r, id) || s1 == Finished(Touch(r, id), id, true))
      && (s' == s1 || exists o :: s' == Rest(s1, id, o))
    ensures After(s, s', id)
  {
    AfterTouched(s, r, id);
    hide Onward, Fresh, NotQueued;
    assert After(s, s1, id);
    if o :| s' == Rest(s1, id, o) {
      ThenRest(s, s1, id, o);
    }
  }

  lemma ThenRest(s: State, s': State, id: nat, o: Order)
    requires After(s, s', id)
    ensures After(s, Rest(s', id, o), id)
  {
  }

  lemma AfterTouched(s: State, r: State, id: nat)
    requires Fresh(s, id) && Onward(s, r)
    ensures After(s, r, id) && id !in r.fills && id !in r.exits
  {
  }

  /* ---- one cancels other ---- */

  /** The condition is met on the way in. */
  predicate Immediate(filled: nat, sz: nat, full: bool) {
    filled > 0 && (filled == sz || !full)
  }

  function LinkedUp(s: State, a: nat, b: nat, full: bool): State
    requires a in s.orders && b in s.orders
  {
    s.(orders := s.orders[a := s.orders[a].(cond := Oco(b, full))][b := s.orders[b].(cond := Oco(a, full))],
       pairs := if full then s.pairs else s.pairs + {(a, b)})
  }

  lemma LinkOk(s: State, a: nat, b: nat, full: bool)
    requires Inv(s, 0, 0) && a in s.orders && b in s.orders && a != b && s.orders[a].cond.Free?
      && s.orders[b].cond.Free?
    requires Unpaired(s, a) && Unpaired(s, b) && (!full ==> a !in s.touched && b !in s.touched)
    ensures Inv(LinkedUp(s, a, b, full), 0, 0) && Potential(LinkedUp(s, a, b, full)) == Potential(s)
  {
    hide Symmetric, Exclusive, Booked, Active, Positioned, Numbered;
    LinkSymmetric(s, a, b, full);
    LinkExclusive(s, a, b, full);
    LinkRest(s, a, b, full);
  }

  lemma LinkSymmetric(s: State, a: nat, b: nat, full: bool)
    requires Symmetric(s.orders) && Numbered(s) && a in s.orders && b in s.orders && a != b && s.orders[a].cond.Free?
      && s.orders[b].cond.Free?
    ensures Symmetric(LinkedUp(s, a, b, full).orders) && Numbered(LinkedUp(s, a, b, full))
    ensures Potential(LinkedUp(s, a, b, full)) == Potential(s)
  {
    assert Symmetric(LinkedUp(s, a, b, full).orders) by {
      hide Numbered;
    }
    LinkNumbered(s, a, b, full);
    hide Symmetric, Numbered;
    var o := s.orders[a].(cond := Oco(b, full));
    WeightSet(s.orders, s.lastId, a, o);
    WeightSet(s.orders[a := o], s.lastId, b, s.orders[b].(cond := Oco(a, full)));
  }

  lemma LinkNumbered(s: State, a: nat, b: nat, full: bool)
    requires Numbered(s) && a in s.orders && b in s.orders
    ensures Numbered(LinkedUp(s, a, b, full)) && a <= s.lastId && b <= s.lastId
  {
  }

  lemma LinkExclusive(s: State, a: nat, b: nat, full: bool)
    requires Numbered(s) && Exclusive(s.orders, s.touched, s.pairs, s.spoilt, s.lastId) && a in s.orders
      && b in s.orders && a != b
    requires s.orders[a].cond.Free? && s.orders[b].cond.Free? && Unpaired(s, a) && Unpaired(s, b)
    requires !full ==> a !in s.touched && b !in s.touched
    ensures var s' := LinkedUp(s, a, b, full); Exclusive(s'.orders, s'.touched, s'.pairs, s'.spoilt, s'.lastId)
  {
  }

  lemma LinkRest(s: State, a: nat, b: nat, full: bool)
    requires Booked(s, 0, 0) && Active(s) && Positioned(s) && Numbered(s) && a in s.orders && b in s.orders && a != b
    requires s.orders[a].cond.Free? && s.orders[b].cond.Free?
    ensures var s' := LinkedUp(s, a, b, full); Booked(s', 0, 0) && Active(s') && Positioned(s')
  {
    var s' := LinkedUp(s, a, b, full);
    LinkRoles(s, a, b, full);
    ExitIds(s);
    hide Booked, Active, Positioned, Numbered, SameRoles, SameExits;
    SameBooked(s, s'.orders, s'.touched, 0, 0);
    PairsBooked(s.(orders := s'.orders), s'.pairs, s'.spoilt);
    SameActive(s, s');
    Entries(s.orders, s'.orders);
    SamePositioned(s, s');
  }

  lemma LinkRoles(s: State, a: nat, b: nat, full: bool)
    requires a in s.orders && b in s.orders && s.orders[a].cond.Free? && s.orders[b].cond.Free?
    ensures SameRoles(s.orders, LinkedUp(s, a, b, full).orders) && SameExits(s.orders, LinkedUp(s, a, b, full).orders)
  {
  }

  lemma PairsBooked(s: State, pairs: set<(nat, nat)>, spoilt: set<(nat, nat)>)
    requires Booked(s, 0, 0)
    ensures Booked(s.(pairs := pairs, spoilt := spoilt), 0, 0)
  {
  }

  /** The second order of a pair met its condition on the way in: the first is pulled. */
  function OcoClosed(s: State, a: nat, b: nat, full: bool): State {
    s.(orders := s.orders - {a}, pairs := if full then s.pairs else s.pairs + {(a, b)},
       spoilt := if !full && a in s.touched then s.spoilt + {(a, b)} else s.spoilt)
  }

  lemma OcoClosedOk(s: State, a: nat, b: nat, full: bool)
    requires Inv(s, 0, 0) && a != b && 0 < a <= s.lastId && 0 < b <= s.lastId && b in s.touched
      && (a in s.orders ==> s.orders[a].cond.Free?)
    requires Unpaired(s, a) && Unpaired(s, b) && NotQueued(s, a) && NotQueued(s, b)
    ensures Inv(OcoClosed(s, a, b, full), 0, 0) && Potential(OcoClosed(s, a, b, full)) <= Potential(s)
  {
    hide Symmetric, Exclusive, Booked, Active, Positioned, Numbered;
    OcoClosedLinks(s, a, b, full);
    OcoClosedExclusive(s, a, b, full);
    OcoClosedRest(s, a, b, full);
  }

  lemma OcoClosedLinks(s: State, a: nat, b: nat, full: bool)
    requires Symmetric(s.orders) && Numbered(s) && (a in s.orders ==> s.orders[a].cond.Free?) && a <= s.lastId
      && b <= s.lastId
    requires NotQueued(s, a) && NotQueued(s, b)
    ensures var s' := OcoClosed(s, a, b, full); Symmetric(s'.orders) && Numbered(s') && Potential(s') <= Potential(s)
  {
    if a in s.orders {
      RemoveSymmetric(s.orders, a);
    } else {
      assert s.orders - {a} == s.orders;
    }
    WeightRemove(s.orders, s.lastId, a);
  }

  lemma OcoClosedExclusive(s: State, a: nat, b: nat, full: bool)
    requires Exclusive(s.orders, s.touched, s.pairs, s.spoilt, s.lastId) && a != b && a <= s.lastId && b <= s.lastId
      && b in s.touched
    requires Unpaired(s, a) && Unpaired(s, b)
    ensures var s' := OcoClosed(s, a, b, full); Exclusive(s'.orders, s'.touched, s'.pairs, s'.spoilt, s'.lastId)
  {
  }

  lemma OcoClosedRest(s: State, a: nat, b: nat, full: bool)
    requires Booked(s, 0, 0) && Active(s) && Positioned(s) && Numbered(s) && (a in s.orders ==> s.orders[a].cond.Free?)
    ensures var s' := OcoClosed(s, a, b, full); Booked(s', 0, 0) && Active(s') && Positioned(s')
  {
    var s' := OcoClosed(s, a, b, full);
    assert SameRoles(s.orders, s'.orders) && SameExits(s.orders, s'.orders);
    ExitIds(s);
    hide Booked, Active, Positioned, Numbered, SameRoles, SameExits;
    SameBooked(s, s'.orders, s'.touched, 0, 0);
    PairsBooked(s.(orders := s'.orders), s'.pairs, s'.spoilt);
    SameActive(s, s');
    Entries(s.orders, s'.orders);
    SamePositioned(s, s');
  }

  /** What entering an order with a condition leaves, and the id to report. */
  datatype Entered = Entered(s: State, id: nat, thrown: bool)

  /** The first order, and if that did not meet the condition the second, which is linked with
      the first unless it meets the condition itself. The source throws if the first is gone then. */
  function OcoEntered(s: State, first: Terms, second: Terms, full: bool, c1: Call, c2: Call): Entered {
    var id1 := s.lastId + 1;
    var i1 := Injected(NewId(s), id1, first, c1);
    if Immediate(i1.filled, first.sz, full) then Entered(i1.s, id1, false)
    else SecondEntered(i1.s, id1, second, full, c2)
  }

  function SecondEntered(s: State, id1: nat, second: Terms, full: bool, c: Call): Entered {
    var id2 := s.lastId + 1;
    var i := Injected(NewId(s), id2, second, c);
    if Immediate(i.filled, second.sz, full) then Entered(OcoClosed(i.s, id1, id2, full), id2, false)
    else if id1 in i.s.orders && id2 in i.s.orders then Entered(LinkedUp(i.s, id1, id2, full), id1, false)
    else Entered(i.s, id1, true)
  }

  /** Both orders trade or are triggered if and only if the first is while the second enters. */
  ghost predicate Spoils(s: State, first: Terms, second: Terms, c1: Call, c2: Call) {
    var id1 := s.lastId + 1;
    var i1 := Injected(NewId(s), id1, first, c1);
    i1.filled == 0 &&
      var i2 := Injected(NewId(i1.s), i1.s.lastId + 1, second, c2);
      i2.filled > 0 && id1 in i2.s.touched
  }

  lemma OcoEnteredOk(s: State, first: Terms, second: Terms, full: bool, c1: Call, c2: Call)
    requires Inv(s, 0, 0) && first.sz > 0 && second.sz > 0 && !first.kind.Market? && !second.kind.Market?
    ensures var r := OcoEntered(s, first, second, full, c1, c2);
      && Inv(r.s, 0, 0) && Potential(r.s) <= Potential(s) + StopWeight(first) + StopWeight(second)
      && (!full ==> !r.thrown)
      && r.s.spoilt == s.spoilt + if !full && Spoils(s, first, second, c1, c2) then {(s.lastId + 1, r.id)} else {}
  {
    hide Inv, Potential, Injected, After, Unpaired, NotQueued;
    var id1 := s.lastId + 1;
    var i1 := Injected(NewId(s), id1, first, c1);
    NewIdOk(s, 0, 0);
    InjectedOk(NewId(s), id1, first, c1);
    AfterFacts(NewId(s), i1.s, id1);
    if !Immediate(i1.filled, first.sz, full) {
      var id2 := i1.s.lastId + 1;
      var i2 := Injected(NewId(i1.s), id2, second, c2);
      NewIdOk(i1.s, 0, 0);
      InjectedOk(NewId(i1.s), id2, second, c2);
      AfterFacts(NewId(i1.s), i2.s, id2);
      FirstKept(s, i1.s, i2.s, id1, id2);
      if Immediate(i2.filled, second.sz, full) {
        OcoClosedOk(i2.s, id1, id2, full);
      } else if id1 in i2.s.orders && id2 in i2.s.orders {
        LinkOk(i2.s, id1, id2, full);
      }
    }
  }

  lemma AfterFacts(s: State, s': State, id: nat)
    requires After(s, s', id) && Fresh(s, id)
    ensures s'.spoilt == s.spoilt && s'.pairs == s.pairs && s'.lastId >= s.lastId && Unpaired(s', id)
      && NotQueued(s', id)
  {
  }

  /** While the second order enters, the first is touched or stays as it is. */
  lemma FirstKept(s: State, s1: State, s2: State, id1: nat, id2: nat)
    requires id1 == s.lastId + 1 && id2 == s1.lastId + 1 && s1.lastId >= id1
    requires After(NewId(s), s1, id1) && After(NewId(s1), s2, id2) && Fresh(NewId(s), id1) && Fresh(NewId(s1), id2)
    requires id1 in s1.orders && s1.orders[id1].cond.Free?
    ensures Unpaired(s2, id1) && NotQueued(s2, id1) && id1 !in s2.exits
      && (id1 in s2.orders ==> s2.orders[id1].cond.Free?)
    ensures id1 !in s2.touched ==> id1 in s2.orders && s2.orders[id1] == s1.orders[id1]
  {
  }

  /* ---- one triggers other ---- */

  function Conditioned(s: State, id: nat, next: Terms, full: bool): State
    requires id in s.orders
  {
    s.(orders := s.orders[id := s.orders[id].(cond := Oto(next, full))])
  }

  lemma ConditionedOk(s: State, id: nat, next: Terms, full: bool)
    requires Inv(s, 0, 0) && id in s.orders && s.orders[id].cond.Free? && next.sz > 0 && Unpaired(s, id)
    ensures Inv(Conditioned(s, id, next, full), 0, 0)
      && Potential(Conditioned(s, id, next, full)) == Potential(s) + TermsWeight(next)
  {
    WeightSet(s.orders, s.lastId, id, Conditioned(s, id, next, full).orders[id]);
    hide Symmetric, Exclusive, Booked, Active, Positioned, Numbered;
    ConditionedLinks(s, id, next, full);
    ConditionedRest(s, id, next, full);
  }

  lemma ConditionedRest(s: State, id: nat, next: Terms, full: bool)
    requires Booked(s, 0, 0) && Active(s) && Positioned(s) && Numbered(s) && id in s.orders && s.orders[id].cond.Free?
    ensures var s' := Conditioned(s, id, next, full); Booked(s', 0, 0) && Active(s') && Positioned(s')
  {
    var s' := Conditioned(s, id, next, full);
    ConditionedRoles(s, id, next, full);
    hide Booked, Active, Positioned, Numbered, SameRoles, SameExits;
    ExitIds(s);
    SameBooked(s, s'.orders, s'.touched, 0, 0);
    SameActive(s, s');
    Entries(s.orders, s'.orders);
    SamePositioned(s, s');
  }

  lemma ConditionedRoles(s: State, id: nat, next: Terms, full: bool)
    requires id in s.orders && s.orders[id].cond.Free?
    ensures SameRoles(s.orders, Conditioned(s, id, next, full).orders)
      && SameExits(s.orders, Conditioned(s, id, next, full).orders)
  {
  }

  lemma ConditionedLinks(s: State, id: nat, next: Terms, full: bool)
    requires Symmetric(s.orders) && Numbered(s) && Exclusive(s.orders, s.touched, s.pairs, s.spoilt, s.lastId)
    requires id in s.orders && s.orders[id].cond.Free? && next.sz > 0 && Unpaired(s, id)
    ensures var s' := Conditioned(s, id, next, full);
      Symmetric(s'.orders) && Numbered(s') && Exclusive(s'.orders, s'.touched, s'.pairs, s'.spoilt, s'.lastId)
  {
  }

  /** The contingent order is queued at once if the condition is met on the way in, and
      waits for it otherwise. */
  function OtoEntered(s: State, leg: Terms, next: Terms, full: bool, c: Call): Entered {
    var id := s.lastId + 1;
    var i := Injected(NewId(s), id, leg, c);
    var s1 := i.s.(legs := i.s.legs[id := full]);
    if i.thrown then Entered(i.s, id, true)
    else if Immediate(i.filled, leg.sz, full) || id !in i.s.orders
      then Entered(Push(s1.(fired := s1.fired + [id]), next), id, false)
    else Entered(Conditioned(s1, id, next, full), id, false)
  }

  lemma OtoEnteredOk(s: State, leg: Terms, next: Terms, full: bool, c: Call)
    requires Inv(s, 0, 0) && leg.sz > 0 && next.sz > 0
    ensures var r := OtoEntered(s, leg, next, full, c);
      && Inv(r.s, 0, 0) && Potential(r.s) <= Potential(s) + StopWeight(leg) + TermsWeight(next)
      && (r.thrown ==> leg.kind.Market?)
  {
    hide Inv, Potential, Injected, After, NotQueued;
    var id := s.lastId + 1;
    var i := Injected(NewId(s), id, leg, c);
    NewIdOk(s, 0, 0);
    InjectedOk(NewId(s), id, leg, c);
    AfterFacts(NewId(s), i.s, id);
    if !i.thrown {
      var s1 := i.s.(legs := i.s.legs[id := full]);
      NotedOk(i.s, i.s.done, s1.legs, i.s.fired, 0, 0);
      if Immediate(i.filled, leg.sz, full) || id !in i.s.orders {
        NotedOk(i.s, i.s.done, s1.legs, i.s.fired + [id], 0, 0);
        PushOk(s1.(fired := s1.fired + [id]), next, 0, 0);
      } else {
        ConditionedOk(s1, id, next, full);
      }
    }
  }

  /* ---- brackets ---- */

  /** What is left of an entry rests, to open pairs of exits as it is filled. */
  function EntryRests(s: State, id: nat, sz: nat): State {
    s.(orders := s.orders[id := Order(false, sz, Entry(0, 0))], fills := Add(s.fills, id, 0))
  }

  lemma EntryRestsOk(s: State, id: nat, sz: nat)
    requires Inv(s, 0, 0) && 0 < id <= s.lastId && id !in s.orders && id !in s.exits && NotQueued(s, id)
      && Unpaired(s, id) && sz > 0
    ensures Inv(EntryRests(s, id, sz), 0, 0) && Potential(EntryRests(s, id, sz)) == Potential(s) + 3 * sz
  {
    WeightSet(s.orders, s.lastId, id, Order(false, sz, Entry(0, 0)));
    hide Symmetric, Exclusive, Booked, Active, Positioned, Numbered;
    EntryLinks(s, id, sz);
    EntryBooked(s, id, sz);
    EntryPositioned(s, id, sz);
  }

  lemma EntryLinks(s: State, id: nat, sz: nat)
    requires Symmetric(s.orders) && Numbered(s) && Exclusive(s.orders, s.touched, s.pairs, s.spoilt, s.lastId)
    requires 0 < id <= s.lastId && id !in s.orders && NotQueued(s, id) && Unpaired(s, id) && sz > 0
    ensures var s' := EntryRests(s, id, sz);
      Symmetric(s'.orders) && Numbered(s') && Exclusive(s'.orders, s'.touched, s'.pairs, s'.spoilt, s'.lastId)
  {
  }

  lemma EntryBooked(s: State, id: nat, sz: nat)
    requires Booked(s, 0, 0) && id !in s.orders && id !in s.exits
    ensures Booked(EntryRests(s, id, sz), 0, 0)
  {
  }

  lemma EntryPositioned(s: State, id: nat, sz: nat)
    requires Active(s) && Positioned(s) && id !in s.orders && id !in s.exits && id <= s.lastId
    ensures Active(EntryRests(s, id, sz)) && Positioned(EntryRests(s, id, sz))
  {
    if id !in s.fills {
      OpenedNone(s.exits, id, s.lastId);
    }
  }

  /** An entry is matched, its fills open a pair of exits, and the rest rests. */
  function EntryEntered(s: State, sz: nat, c: Call): Entered {
    Entered(EntryRouted(NewId(s), s.lastId + 1, sz, c), s.lastId + 1, false)
  }

  function EntryRouted(s: State, id: nat, sz: nat, c: Call): State {
    var r := Routed(s, sz, c);
    var s1 := EntryOpened(r.0, id, r.1);
    if r.1 < sz then EntryRests(s1, id, sz - r.1) else s1
  }

  /** An entry that was filled on the way in opens a pair of exits. */
  function EntryOpened(s: State, id: nat, filled: nat): State {
    if filled > 0 then OpenNew(Filled(Touch(s, id), id, filled), id, filled) else s
  }

  lemma EntryEnteredOk(s: State, sz: nat, c: Call)
    requires Inv(s, 0, 0) && sz > 0
    ensures var r := EntryEntered(s, sz, c); Inv(r.s, 0, 0) && Potential(r.s) <= Potential(s) + 3 * sz
    ensures var r := EntryEntered(s, sz, c);
      var f := Routed(NewId(s), sz, c);
      && r.id == s.lastId + 1
      && (f.1 > 0 ==> var t := f.0.lastId + 1;
           && r.s.queue == f.0.queue + [Exits(t, r.id, f.1)] && t in r.s.exits
             && r.s.exits[t] == Pair(r.id, f.1, 0, 0, 0)
           && r.id in r.s.fills && r.s.fills[r.id] == f.1)
      && (f.1 == 0 ==> r.s.queue == f.0.queue && r.s.exits == f.0.exits)
      && (f.1 < sz ==> r.id in r.s.orders && r.s.orders[r.id] == Order(false, sz - f.1, Entry(0, 0)))
  {
    hide Inv, Potential, Routed, Onward;
    var id := s.lastId + 1;
    var r := Routed(NewId(s), sz, c);
    NewIdOk(s, 0, 0);
    RoutedOk(NewId(s), sz, c, 0, 0);
    FreshOnward(NewId(s), r.0, id);
    var s1 := r.0;
    if r.1 > 0 {
      TakerOk(r.0, id, 0, 0);
      OpenNewOk(Touch(r.0, id), id, r.1, 0, 0);
      s1 := OpenNew(Filled(Touch(r.0, id), id, r.1), id, r.1);
      assert forall i :: 0 <= i < |r.0.queue| ==> s1.queue[i] == r.0.queue[i];
    }
    if r.1 < sz {
      EntryRestsOk(s1, id, sz - r.1);
    }
  }

  /** What is left of a target order rests, linked with a new loss order of the same size;
      the entry, if it still rests, takes them for its active pair. */
  function PairRests(s: State, t: nat, e: nat, sz: nat): State {
    var l := s.lastId + 1;
    var orders := if e in s.orders then s.orders[e := s.orders[e].(cond := Entry(l, t))] else s.orders;
    s.(orders := orders[t := Order(false, sz, Exit(l))][l := Order(true, sz, Exit(t))], lastId := l)
  }

  lemma PairRestsOk(s: State, t: nat, e: nat, sz: nat)
    requires Inv(s, t, sz) && sz > 0 && 0 < t <= s.lastId && t in s.exits && s.exits[t].entry == e && NotQueued(s, t)
      && Unpaired(s, t) && t !in s.fills
    ensures Inv(PairRests(s, t, e, sz), 0, 0) && Potential(PairRests(s, t, e, sz)) == Potential(s) + 2
  {
    WorkFacts(s, t, sz);
    hide Symmetric, Exclusive, Booked, Active, Positioned, Numbered, PairRests;
    RestsSymmetric(s, t, e, sz);
    RestsNumbered(s, t, e, sz);
    RestsExclusive(s, t, e, sz);
    RestsBooked(s, t, e, sz);
    RestsActive(s, t, e, sz);
    RestsPositioned(s, t, e, sz);
    RestsPotential(s, t, e, sz);
  }

  lemma WorkFacts(s: State, t: nat, sz: nat)
    requires Inv(s, t, sz) && t != 0
    ensures t in s.exits && t !in s.orders
  {
    hide Symmetric, Exclusive, Active, Positioned, Numbered;
  }

  lemma RestsSymmetric(s: State, t: nat, e: nat, sz: nat)
    requires Symmetric(s.orders) && Numbered(s) && Active(s) && sz > 0 && 0 < t <= s.lastId && t !in s.orders
    requires t in s.exits && s.exits[t].entry == e
    ensures Symmetric(PairRests(s, t, e, sz).orders)
  {
    ActiveEntry(s, t, e);
    hide Active;
  }

  lemma ActiveEntry(s: State, t: nat, e: nat)
    requires Active(s) && t in s.exits && s.exits[t].entry == e
    ensures e in s.orders ==> s.orders[e].cond.Entry?
  {
  }

  lemma RestsNumbered(s: State, t: nat, e: nat, sz: nat)
    requires Numbered(s) && 0 < t <= s.lastId && NotQueued(s, t)
    ensures Numbered(PairRests(s, t, e, sz))
  {
  }

  lemma RestsExclusive(s: State, t: nat, e: nat, sz: nat)
    requires Exclusive(s.orders, s.touched, s.pairs, s.spoilt, s.lastId) && Unpaired(s, t) && Active(s) && t in s.exits
      && s.exits[t].entry == e
    ensures var s' := PairRests(s, t, e, sz); Exclusive(s'.orders, s'.touched, s'.pairs, s'.spoilt, s'.lastId)
  {
  }

  lemma RestsOpen(s: State, t: nat, e: nat, sz: nat)
    requires Numbered(s) && Active(s) && t in s.exits && s.exits[t].entry == e && NotQueued(s, t)
    ensures forall x :: x in s.exits && x != t ==> OpenExit(PairRests(s, t, e, sz), x) == OpenExit(s, x)
    ensures OpenExit(PairRests(s, t, e, sz), t) == sz
  {
    WaitingNone(s.queue, t);
    ExitIds(s);
    hide NotQueued, Unpaired, Awaiting;
  }

  lemma RestsBooked(s: State, t: nat, e: nat, sz: nat)
    requires Booked(s, t, sz) && Numbered(s) && Active(s) && t in s.exits && s.exits[t].entry == e && t != 0
      && NotQueued(s, t)
    ensures Booked(PairRests(s, t, e, sz), 0, 0)
  {
    ExitIds(s);
    RestsOpen(s, t, e, sz);
    WaitingNone(s.queue, t);
    hide OpenExit, Waiting, NotQueued, Unpaired, Awaiting;
    assert t !in s.orders ==> OpenExit(s, t) == 0 by {
      NothingOpen(s, t);
    }
  }

  lemma NothingOpen(s: State, t: nat)
    requires t !in s.orders && Waiting(s.queue, t) == 0
    ensures OpenExit(s, t) == 0
  {
  }

  lemma RestsActive(s: State, t: nat, e: nat, sz: nat)
    requires Active(s) && Positioned(s) && Numbered(s) && t in s.exits && s.exits[t].entry == e && t != 0
      && t !in s.orders && t !in s.fills
    ensures Active(PairRests(s, t, e, sz))
  {
    hide OpenedFor;
  }

  lemma RestsPositioned(s: State, t: nat, e: nat, sz: nat)
    requires Active(s) && Positioned(s) && Numbered(s) && t in s.exits && s.exits[t].entry == e && t != 0
      && t !in s.orders && t !in s.fills
    ensures Positioned(PairRests(s, t, e, sz))
  {
    var s' := PairRests(s, t, e, sz);
    forall x | x in s'.fills ensures s'.fills[x] == OpenedFor(s'.exits, x, s'.lastId) {
      OpenedMore(s.exits, x, s.lastId, s'.lastId);
    }
    hide OpenedFor;
  }

  lemma RestsPotential(s: State, t: nat, e: nat, sz: nat)
    requires Numbered(s) && Active(s) && t in s.exits && s.exits[t].entry == e && 0 < t <= s.lastId && t !in s.orders
    ensures Potential(PairRests(s, t, e, sz)) == Potential(s) + 2
  {
    var l := s.lastId + 1;
    var orders := if e in s.orders then s.orders[e := s.orders[e].(cond := Entry(l, t))] else s.orders;
    WeightMore(s.orders, s.lastId, l);
    if e in s.orders {
      WeightSet(s.orders, l, e, s.orders[e].(cond := Entry(l, t)));
    }
    WeightSet(orders, l, t, Order(false, sz, Exit(l)));
    WeightSet(orders[t := Order(false, sz, Exit(l))], l, l, Order(true, sz, Exit(t)));
  }

  /** The target order of a pair enters. */
  function ExitsEntered(s: State, t: nat, e: nat, sz: nat, c: Call): State {
    var r := Routed(s, sz, c);
    var s1 := TargetTaken(r.0, t, r.1);
    if r.1 < sz then PairRests(s1, t, e, sz - r.1) else s1
  }

  /** A target that was filled on the way in. */
  function TargetTaken(s: State, t: nat, filled: nat): State {
    if filled > 0 then Touch(ExitFilled(s, t, filled), t) else s
  }

  lemma ExitsEnteredOk(s: State, t: nat, e: nat, sz: nat, c: Call)
    requires Inv(s, t, sz) && sz > 0 && 0 < t <= s.lastId && t in s.exits && s.exits[t].entry == e && NotQueued(s, t)
      && Unpaired(s, t) && t !in s.fills
    ensures Inv(ExitsEntered(s, t, e, sz, c), 0, 0) && Potential(ExitsEntered(s, t, e, sz, c)) <= Potential(s) + 2
  {
    hide Inv, Potential, Routed, Onward, PairRests, NotQueued, Unpaired, ExitFilled;
    WorkFacts(s, t, sz);
    var r := Routed(s, sz, c);
    RoutedOk(s, sz, c, t, sz);
    OnwardExit(s, r.0, t);
    var s1 := r.0;
    if r.1 > 0 {
      WorkTaken(r.0, t, sz, r.1);
      s1 := Touch(ExitFilled(r.0, t, r.1), t);
    }
    if r.1 < sz {
      PairRestsOk(s1, t, e, sz - r.1);
    } else {
      WorkDone(s1, t);
    }
  }

  lemma WorkTaken(s: State, t: nat, sz: nat, amount: nat)
    requires Inv(s, t, sz) && amount <= sz && t in s.exits && 0 < t <= s.lastId && NotQueued(s, t) && Unpaired(s, t)
      && t !in s.fills
    ensures var s' := Touch(ExitFilled(s, t, amount), t);
      && Inv(s', t, sz - amount) && Potential(s') == Potential(s) && NotQueued(s', t) && Unpaired(s', t)
        && t !in s'.fills
      && t in s'.exits && s'.exits[t].entry == s.exits[t].entry && s'.lastId == s.lastId
  {
    hide Inv, Potential;
    WorkFilled(s, t, sz, amount);
    TakerOk(ExitFilled(s, t, amount), t, t, sz - amount);
  }

  lemma OnwardExit(s: State, s': State, t: nat)
    requires Onward(s, s') && t in s.exits && 0 < t <= s.lastId && NotQueued(s, t) && Unpaired(s, t) && t !in s.fills
      && t !in s.orders
    ensures t in s'.exits && s'.exits[t].entry == s.exits[t].entry && t <= s'.lastId && NotQueued(s', t)
      && Unpaired(s', t) && t !in s'.fills
  {
  }

  lemma WorkFilled(s: State, t: nat, sz: nat, amount: nat)
    requires Inv(s, t, sz) && amount <= sz && t in s.exits && 0 < t
    ensures Inv(ExitFilled(s, t, amount), t, sz - amount) && Potential(ExitFilled(s, t, amount)) == Potential(s)
    ensures t in ExitFilled(s, t, amount).exits && ExitFilled(s, t, amount).exits[t].entry == s.exits[t].entry
    ensures ExitFilled(s, t, amount).fills == s.fills
  {
    var s' := ExitFilled(s, t, amount);
    WorkBooked(s, t, sz, amount);
    ExitIds(s);
    assert Numbered(s') by {
      hide Booked, Active, Positioned, Symmetric, Exclusive;
    }
    hide Symmetric, Exclusive, Booked, Active, Positioned, Numbered;
    SameActive1(s);
    SameActive(s, s');
    SamePositioned(s, s');
  }

  lemma WorkBooked(s: State, t: nat, sz: nat, amount: nat)
    requires Booked(s, t, sz) && amount <= sz && t in s.exits
    ensures Booked(ExitFilled(s, t, amount), t, sz - amount)
  {
  }

  lemma WorkDone(s: State, t: nat)
    requires Inv(s, t, 0)
    ensures Inv(s, 0, 0)
  {
    hide Symmetric, Exclusive, Active, Positioned, Numbered;
  }

  /* ---- the queue ---- */

  function Popped(s: State): State
    requires s.queue != []
  {
    s.(queue := s.queue[1..])
  }

  /** The front of the queue is taken up; a target order is in work with all its size. */
  lemma PoppedOk(s: State)
    requires Inv(s, 0, 0) && s.queue != []
    ensures var t := s.queue[0];
      && Potential(Popped(s)) == Potential(s) - TicketWeight(t)
      && NotQueued(Popped(s), t.id) && 0 < t.id <= s.lastId && t.id !in s.fills && Unpaired(Popped(s), t.id)
      && if t.Basic? then Inv(Popped(s), 0, 0) && Fresh(Popped(s), t.id) && t.terms.sz > 0
         else Inv(Popped(s), t.id, t.sz) && t.id in s.exits && s.exits[t.id].entry == t.entry && t.sz > 0
  {
    var t := s.queue[0];
    var s' := Popped(s);
    assert forall i :: 0 <= i < |s'.queue| ==> s'.queue[i] == s.queue[i + 1];
    assert Awaiting(s, t);
    assert Numbered(s') by {
      hide Booked, Active, Positioned, Symmetric, Exclusive;
    }
    PoppedBooked(s);
    hide Booked, Symmetric, Exclusive;
  }

  lemma PoppedBooked(s: State)
    requires Booked(s, 0, 0) && s.queue != [] && Numbered(s)
    ensures var t := s.queue[0]; if t.Basic? then Booked(Popped(s), 0, 0)
      else Booked(Popped(s), t.id, t.sz) && t.id in s.exits && s.exits[t.id].entry == t.entry
  {
    var t := s.queue[0];
    var s' := Popped(s);
    assert forall i :: 0 <= i < |s'.queue| ==> s'.queue[i] == s.queue[i + 1];
    assert Awaiting(s, t);
  }

  /** An exception drops the front of the queue; the exits of a pair then never open. */
  function Dropped(s: State): State
    requires s.queue != []
  {
    var t := s.queue[0];
    if t.Exits? && t.id in s.exits then
      Popped(s).(exits := s.exits[t.id := s.exits[t.id].(cancelled := s.exits[t.id].cancelled + t.sz)])
    else Popped(s)
  }

  lemma DroppedOk(s: State)
    requires Inv(s, 0, 0) && s.queue != []
    ensures Inv(Dropped(s), 0, 0)
  {
    hide Inv, Potential, TicketWeight, Fresh, Unpaired, NotQueued;
    PoppedOk(s);
    var t := s.queue[0];
    if t.Exits? {
      WorkCancelled(Popped(s), t.id, t.sz);
      WorkDone(Dropped(s), t.id);
    }
  }

  lemma WorkCancelled(s: State, t: nat, sz: nat)
    requires Inv(s, t, sz) && t in s.exits && 0 < t
    ensures Inv(s.(exits := s.exits[t := s.exits[t].(cancelled := s.exits[t].cancelled + sz)]), t, 0)
  {
    var s' := s.(exits := s.exits[t := s.exits[t].(cancelled := s.exits[t].cancelled + sz)]);
    CancelledBooked(s, t, sz);
    ExitIds(s);
    assert Numbered(s') by {
      hide Booked, Active, Positioned, Symmetric, Exclusive;
    }
    hide Symmetric, Exclusive, Booked, Active, Positioned, Numbered;
    SameActive1(s);
    SameActive(s, s');
    SamePositioned(s, s');
  }

  lemma CancelledBooked(s: State, t: nat, sz: nat)
    requires Booked(s, t, sz) && t in s.exits
    ensures Booked(s.(exits := s.exits[t := s.exits[t].(cancelled := s.exits[t].cancelled + sz)]), t, 0)
  {
  }

  /* ---- a pull ---- */

  /** A resting order is pulled, and what it is linked to with it. */
  function Withdrawn(s: State, id: nat): State
    requires id in s.orders
  {
    var o := s.orders[id];
    match o.cond
    case Oco(p, _) => s.(orders := s.orders - {id, p})
    case Exit(p) =>
      var t := TargetOf(s.orders, id);
      if t in s.exits then
        PairClosed(s, if t == id then p else id, t, s.exits[t].(cancelled := s.exits[t].cancelled + o.sz), s.touched)
      else s
    case _ => s.(orders := s.orders - {id})
  }

  lemma WithdrawnOk(s: State, id: nat)
    requires Inv(s, 0, 0) && id in s.orders
    ensures Inv(Withdrawn(s, id), 0, 0) && id !in Withdrawn(s, id).orders && Potential(Withdrawn(s, id)) <= Potential(s)
  {
    hide Inv, Potential;
    var o := s.orders[id];
    match o.cond {
      case Oco(p, _) => GoneOcoOnly(s, id);
      case Exit(p) =>
        ExitFacts(s, id, 0, 0);
        var t := TargetOf(s.orders, id);
        PairClosedOk(s, if t == id then p else id, t, s.exits[t].(cancelled := s.exits[t].cancelled + o.sz), s.touched,
          0, 0);
      case _ => GoneOnly(s, id);
    }
  }

  lemma GoneOnly(s: State, id: nat)
    requires Inv(s, 0, 0) && id in s.orders && !s.orders[id].cond.Oco? && !s.orders[id].cond.Exit?
    ensures var s' := s.(orders := s.orders - {id}); Inv(s', 0, 0) && Potential(s') <= Potential(s)
  {
    RemoveSymmetric(s.orders, id);
    RemovePotential(s, id);
    Removed(s, {id});
  }

  lemma GoneOcoOnly(s: State, id: nat)
    requires Inv(s, 0, 0) && id in s.orders && s.orders[id].cond.Oco?
    ensures var s' := s.(orders := s.orders - {id, s.orders[id].cond.partner});
      Inv(s', 0, 0) && Potential(s') <= Potential(s)
  {
    var p := s.orders[id].cond.partner;
    OcoGone(s.orders, id);
    GoneOcoOk(s, id, 0, 0);
    Removed(s, {id, p});
    assert Potential(s.(orders := s.orders - {id, p})) ==
      Potential(s.(orders := s.orders - {id, p}, touched := s.touched + {id}));
  }

  /** Orders that are no exits are gone. */
  lemma Removed(s: State, ids: set<nat>)
    requires Inv(s, 0, 0) && Symmetric(s.orders - ids) && forall id :: id in ids && id in s.orders ==>
      !s.orders[id].cond.Exit?
    ensures Inv(s.(orders := s.orders - ids), 0, 0)
  {
    var s' := s.(orders := s.orders - ids);
    assert SameRoles(s.orders, s'.orders) && SameExits(s.orders, s'.orders);
    SizeExclusive(s.orders, s'.orders, s.touched, s.pairs, s.spoilt, s.lastId);
    ExitIds(s);
    assert Numbered(s') by {
      hide Booked, Active, Positioned, Symmetric, Exclusive;
    }
    hide Symmetric, Exclusive, Booked, Active, Positioned, Numbered, SameRoles, SameExits;
    SameBooked(s, s'.orders, s.touched, 0, 0);
    SameActive(s, s');
    Entries(s.orders, s'.orders);
    SamePositioned(s, s');
  }
}
