/** What happens to linked orders while an incoming order is matched. */
module Routing {
  import opened Linked

  /** The hits the engine answers with, as far as they are possible. */
  function RoutedHits(s: State, left: nat, hits: seq<(nat, nat)>): (r: (State, nat))
    ensures r.1 <= left
    decreases |hits|
  {
    if hits == [] then (s, 0)
    else if CanHit(s, hits[0].0, hits[0].1) && hits[0].1 <= left then
      var r := RoutedHits(Hit(s, hits[0].0, hits[0].1), left - hits[0].1, hits[1..]);
      (r.0, hits[0].1 + r.1)
    else RoutedHits(s, left, hits[1..])
  }

  function RoutedTriggers(s: State, ts: seq<(nat, bool)>): State
    decreases |ts|
  {
    if ts == [] then s
    else RoutedTriggers(if CanTrigger(s, ts[0].0) then Triggered(s, ts[0].0, ts[0].1) else s, ts[1..])
  }

  /** An incoming order of size sz is matched; stops are triggered by trades only. */
  function Routed(s: State, sz: nat, call: Call): (r: (State, nat))
    ensures r.1 <= sz
  {
    var h := RoutedHits(s, sz, call.hits);
    (if h.1 > 0 then RoutedTriggers(h.0, call.triggers) else h.0, h.1)
  }

  /** While an order is matched no order comes to rest, pairs stay what they are, and an order
      without a condition is left alone unless it is touched. */
  ghost predicate Onward(s: State, s': State) {
    && s'.orders.Keys <= s.orders.Keys && s.touched <= s'.touched && s.lastId <= s'.lastId
    && s'.pairs == s.pairs && s'.spoilt == s.spoilt
    && (forall x :: x in s.orders && s.orders[x].cond.Free? && x !in s'.touched ==>
      x in s'.orders && s'.orders[x] == s.orders[x])
    && (forall x :: x in s'.orders && s.orders[x].cond.Free? ==>
      s'.orders[x].cond.Free? && s'.orders[x].stop == s.orders[x].stop)
    && (forall x :: x in s'.touched && x !in s.touched ==> x in s.orders)
    && (forall x :: x in s'.fills && x !in s.fills ==> x in s.orders)
    && (forall x :: x in s.exits ==> x in s'.exits && s'.exits[x].entry == s.exits[x].entry)
    && (forall x :: x in s'.exits && x !in s.exits ==> x > s.lastId)
    && (forall i :: 0 <= i < |s'.queue| ==> s'.queue[i] in s.queue || s'.queue[i].id > s.lastId)
  }

  lemma OnwardTrans(a: State, b: State, c: State)
    requires Onward(a, b) && Onward(b, c)
    ensures Onward(a, c)
  {
  }

  lemma FinishedOnward(s: State, s': State, id: nat, over: bool)
    requires Onward(s, s')
    ensures Onward(s, Finished(s', id, over))
  {
  }

  lemma HitOnward(s: State, id: nat, amount: nat)
    requires CanHit(s, id, amount) && (s.orders[id].cond.Oco? || s.orders[id].cond.Exit? ==> Linkage(s, id))
    requires s.orders[id].cond.Entry? ==> Pairage(s, id) && id in s.fills
    ensures Onward(s, Hit(s, id, amount))
  {
    hide Onward, Dealt, Finished;
    DealtOnward(s, id, amount);
    FinishedOnward(s, Dealt(s, id, amount), id, amount == s.orders[id].sz);
  }

  lemma DealtOnward(s: State, id: nat, amount: nat)
    requires CanHit(s, id, amount) && (s.orders[id].cond.Oco? || s.orders[id].cond.Exit? ==> Linkage(s, id))
    requires s.orders[id].cond.Entry? ==> Pairage(s, id) && id in s.fills
    ensures Onward(s, Dealt(s, id, amount))
  {
    hide Dealt, Onward;
    if s.orders[id].cond.Entry? {
      EntryOnward(s, id, amount);
    } else if s.orders[id].cond.Exit? {
      ExitOnward(s, id, amount);
    } else if s.orders[id].cond.Oco? {
      OcoOnward(s, id, amount);
    } else {
      PlainOnward(s, id, amount);
    }
  }

  lemma ExitOnward(s: State, id: nat, amount: nat)
    requires CanHit(s, id, amount) && s.orders[id].cond.Exit? && Linkage(s, id)
    ensures Onward(s, Dealt(s, id, amount))
  {
    var s1 := Handled(Traded(s, id, amount), id, amount);
    assert Onward(s, s1) by {
      hide Dealt;
      assert s1.orders.Keys <= s.orders.Keys && s1.queue == s.queue;
    }
    if id in s1.orders && amount <= s1.orders[id].sz {
      hide Handled;
      ShrunkOnward(s, s1, id, amount);
    }
  }

  lemma ShrunkOnward(s: State, s': State, id: nat, amount: nat)
    requires Onward(s, s') && id in s'.touched && id in s'.orders && amount <= s'.orders[id].sz
    ensures Onward(s, s'.(orders := Shrunk(s'.orders, id, amount)))
  {
  }

  /** An order that is linked to nothing, or waited for. */
  lemma PlainOnward(s: State, id: nat, amount: nat)
    requires CanHit(s, id, amount) && (s.orders[id].cond.Free? || s.orders[id].cond.Oto?)
    ensures Onward(s, Dealt(s, id, amount))
  {
    var s1 := Handled(Touch(s, id), id, amount);
    assert Onward(s, s1) by {
      hide Dealt;
      assert forall i :: 0 <= i < |s1.queue| ==> s1.queue[i] in s.queue || s1.queue[i].id > s.lastId;
    }
    hide Handled, Onward;
    if id in s1.orders && amount <= s1.orders[id].sz {
      TouchedHandled(s, id, amount);
      ShrunkOnward(s, s1, id, amount);
    }
  }

  lemma TouchedHandled(s: State, id: nat, amount: nat)
    requires CanHit(s, id, amount) && !s.orders[id].cond.Entry?
    ensures id in Handled(Touch(s, id), id, amount).touched
  {
  }

  lemma OcoOnward(s: State, id: nat, amount: nat)
    requires CanHit(s, id, amount) && s.orders[id].cond.Oco? && Linkage(s, id)
    ensures Onward(s, Dealt(s, id, amount))
  {
    var s1 := Handled(Touch(s, id), id, amount);
    assert Onward(s, s1) by {
      hide Dealt;
      assert s1.queue == s.queue && s1.exits == s.exits && s1.fills == s.fills;
      assert s1.orders.Keys <= s.orders.Keys;
    }
    hide Handled, Onward;
    if id in s1.orders && amount <= s1.orders[id].sz {
      TouchedHandled(s, id, amount);
      ShrunkOnward(s, s1, id, amount);
    }
  }

  lemma EntryOnward(s: State, id: nat, amount: nat)
    requires CanHit(s, id, amount) && s.orders[id].cond.Entry? && Pairage(s, id) && id in s.fills
    ensures Onward(s, Dealt(s, id, amount))
  {
    var l, t := s.orders[id].cond.loss, s.orders[id].cond.target;
    var s0 := Traded(s, id, amount);
    var s1 := Open(s0, id, amount);
    assert id in s1.touched && s1 == Handled(s0, id, amount);
    hide Onward, Handled, PairGrown, OpenNew;
    if t != 0 && l in s.orders && t in s.orders && t in s.exits {
      GrownOnward(s, id, amount, l, t);
    } else {
      OpenedOnward(s, id, amount);
    }
    hide Open, Traded;
    if id in s1.orders && amount <= s1.orders[id].sz {
      ShrunkOnward(s, s1, id, amount);
    }
  }

  lemma GrownOnward(s: State, id: nat, amount: nat, l: nat, t: nat)
    requires CanHit(s, id, amount) && s.orders[id].cond == Entry(l, t) && id in s.fills
    requires l in s.orders && t in s.orders && t in s.exits && !s.orders[l].cond.Free? && !s.orders[t].cond.Free?
    ensures Onward(s, PairGrown(Traded(s, id, amount), id, l, t, amount))
  {
  }

  lemma OpenedOnward(s: State, id: nat, amount: nat)
    requires CanHit(s, id, amount) && s.orders[id].cond.Entry? && id in s.fills && s.lastId + 1 !in s.exits
    ensures Onward(s, OpenNew(Traded(s, id, amount), id, amount))
  {
    var s1 := OpenNew(Traded(s, id, amount), id, amount);
    assert forall i :: 0 <= i < |s1.queue| ==> s1.queue[i] in s.queue || s1.queue[i].id > s.lastId;
  }

  /** What id is linked to is linked. */
  ghost predicate Linkage(s: State, id: nat)
    requires id in s.orders && (s.orders[id].cond.Oco? || s.orders[id].cond.Exit?)
  {
    var p := s.orders[id].cond.partner; p in s.orders && !s.orders[p].cond.Free?
  }

  ghost predicate Pairage(s: State, id: nat)
    requires id in s.orders && s.orders[id].cond.Entry?
  {
    var l, t := s.orders[id].cond.loss, s.orders[id].cond.target;
    && (t != 0 && l in s.orders && t in s.orders && t in s.exits ==> !s.orders[l].cond.Free? && !s.orders[t].cond.Free?)
    && s.lastId + 1 !in s.exits
  }

  lemma Linkages(s: State, id: nat, w: nat, left: nat)
    requires Inv(s, w, left) && id in s.orders
    ensures s.orders[id].cond.Oco? || s.orders[id].cond.Exit? ==> Linkage(s, id)
    ensures s.orders[id].cond.Entry? ==> Pairage(s, id) && id in s.fills
  {
    hide Exclusive, Booked;
  }

  lemma UnlinkedOnward(s: State, id: nat)
    requires CanTrigger(s, id) && (s.orders[id].cond.Oco? || s.orders[id].cond.Exit? ==> Linkage(s, id))
    ensures Onward(s, Unlinked(Touch(s, id), id)) && id in Unlinked(Touch(s, id), id).touched
  {
    var s1 := Unlinked(Touch(s, id), id);
    assert s1.queue == s.queue && s1.fills == s.fills && s1.orders.Keys <= s.orders.Keys;
  }

  lemma PushOnward(s: State, s': State, terms: Terms)
    requires Onward(s, s')
    ensures Onward(s, Push(s', terms))
  {
    var r := Push(s', terms);
    assert forall i :: 0 <= i < |r.queue| ==> r.queue[i] in s.queue || r.queue[i].id > s.lastId;
  }

  lemma FireOnward(s: State, s': State, id: nat)
    requires Onward(s, s') && id in s'.touched && id in s.orders && s.orders[id].cond.Oto?
    requires id in s'.orders && s'.orders[id].cond.Oto?
    ensures Onward(s, Fire(s', id))
  {
    var s1 := s'.(orders := s'.orders[id := s'.orders[id].(cond := Free)], fired := s'.fired + [id]);
    assert Onward(s, s1);
    hide Onward;
    PushOnward(s, s1, s'.orders[id].cond.next);
  }

  lemma GoneOnward(s: State, s': State, id: nat)
    requires Onward(s, s') && id in s'.touched
    ensures Onward(s, s'.(orders := s'.orders - {id}))
  {
  }

  lemma SprungOnward(s: State, id: nat, market: bool)
    requires CanTrigger(s, id) && (s.orders[id].cond.Oco? || s.orders[id].cond.Exit? ==> Linkage(s, id))
    ensures Onward(s, Sprung(s, id, market))
  {
    hide Onward, Linkage;
    var s0 := Unlinked(Touch(s, id), id);
    UnlinkedOnward(s, id);
    var terms := Terms(if market then Market else Limit, s.orders[id].sz);
    PushOnward(s, s0, terms);
    var s1 := Push(s0, terms);
    if s.orders[id].cond.Oto? {
      FireOnward(s, s1, id);
      GoneOnward(s, Fire(s1, id), id);
    } else {
      GoneOnward(s, s1, id);
    }
  }

  lemma TriggeredOnward(s: State, id: nat, market: bool)
    requires CanTrigger(s, id) && (s.orders[id].cond.Oco? || s.orders[id].cond.Exit? ==> Linkage(s, id))
    ensures Onward(s, Triggered(s, id, market))
  {
    hide Onward, Sprung, Finished;
    SprungOnward(s, id, market);
    FinishedOnward(s, Sprung(s, id, market), id, true);
  }

  lemma {:induction false} RoutedHitsOk(s: State, sz: nat, hits: seq<(nat, nat)>, w: nat, left: nat)
    requires Inv(s, w, left)
    ensures var s' := RoutedHits(s, sz, hits).0; Inv(s', w, left) && Potential(s') <= Potential(s) && Onward(s, s')
    decreases |hits|
  {
    hide Inv, Potential, Hit, Onward, Linkage, Pairage;
    OnwardSelf(s);
    if hits != [] {
      var id, amount := hits[0].0, hits[0].1;
      if CanHit(s, id, amount) && amount <= sz {
        HitOk(s, id, amount, w, left);
        Linkages(s, id, w, left);
        HitOnward(s, id, amount);
        RoutedHitsOk(Hit(s, id, amount), sz - amount, hits[1..], w, left);
        OnwardTrans(s, Hit(s, id, amount), RoutedHits(s, sz, hits).0);
      } else {
        RoutedHitsOk(s, sz, hits[1..], w, left);
      }
    }
  }

  lemma OnwardSelf(s: State)
    ensures Onward(s, s)
  {
  }

  lemma {:induction false} RoutedTriggersOk(s: State, ts: seq<(nat, bool)>, w: nat, left: nat)
    requires Inv(s, w, left)
    ensures var s' := RoutedTriggers(s, ts); Inv(s', w, left) && Potential(s') <= Potential(s) && Onward(s, s')
    decreases |ts|
  {
    hide Inv, Potential, Triggered, Onward, Linkage, Pairage;
    OnwardSelf(s);
    if ts != [] {
      var id, market := ts[0].0, ts[0].1;
      if CanTrigger(s, id) {
        TriggeredOk(s, id, market, w, left);
        Linkages(s, id, w, left);
        TriggeredOnward(s, id, market);
        RoutedTriggersOk(Triggered(s, id, market), ts[1..], w, left);
        OnwardTrans(s, Triggered(s, id, market), RoutedTriggers(s, ts));
      } else {
        RoutedTriggersOk(s, ts[1..], w, left);
      }
    }
  }

  /** Matching an order keeps all linked orders in order, and brings no more orders into the
      window than were reckoned with; without a trade nothing happens at all. */
  lemma RoutedOk(s: State, sz: nat, call: Call, w: nat, left: nat)
    requires Inv(s, w, left)
    ensures var r := Routed(s, sz, call); Inv(r.0, w, left) && Potential(r.0) <= Potential(s) && Onward(s, r.0)
    ensures Routed(s, sz, call).1 == 0 ==> Routed(s, sz, call).0 == s
  {
    hide Inv, Potential, Onward;
    var h := RoutedHits(s, sz, call.hits);
    RoutedHitsOk(s, sz, call.hits, w, left);
    RoutedTriggersOk(h.0, call.triggers, w, left);
    OnwardTrans(s, h.0, RoutedTriggers(h.0, call.triggers));
    NoHits(s, sz, call.hits);
  }

  lemma {:induction false} NoHits(s: State, left: nat, hits: seq<(nat, nat)>)
    ensures RoutedHits(s, left, hits).1 == 0 ==> RoutedHits(s, left, hits).0 == s
    decreases |hits|
  {
    if hits != [] {
      if !(CanHit(s, hits[0].0, hits[0].1) && hits[0].1 <= left) {
        NoHits(s, left, hits[1..]);
      }
    }
  }
}
