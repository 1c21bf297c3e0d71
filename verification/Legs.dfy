/** One-triggers-other orders: every leg accepted fires its contingent order at most once, and
    exactly when it meets its condition. */
module Legs {
  import opened Linked
  import opened Routing
  import opened Contingent

  /** The leg has met its condition: it traded or was triggered, or did so to the last unit. */
  predicate Met(s: State, leg: nat)
    requires leg in s.legs
  {
    if s.legs[leg] then leg in s.done else leg in s.touched
  }

  ghost predicate Distinct(ids: seq<nat>) {
    forall i, j :: 0 <= i < j < |ids| ==> ids[i] != ids[j]
  }

  /** No leg fires twice, a leg has fired if and only if it has met its condition, and one that has
      not waits with its contingent order for as long as it rests. */
  ghost predicate Legged(s: State) {
    && Distinct(s.fired)
    && (forall l :: l in s.fired ==> l in s.legs)
    && (forall l :: l in s.legs ==> l <= s.lastId && (l in s.fired <==> Met(s, l)))
    && (forall l :: l in s.orders && s.orders[l].cond.Oto? ==>
      l in s.legs && l !in s.fired && s.legs[l] == s.orders[l].cond.full)
    && (forall l :: l in s.legs && l in s.orders && l !in s.fired ==> s.orders[l].cond.Oto?)
    && (forall t :: t in s.queue ==> t.id !in s.legs)
    && (forall x :: x in s.orders || x in s.done ==> x <= s.lastId)
  }

  /** A step in which no leg meets its condition. */
  ghost predicate Uneventful(s: State, s': State) {
    && s'.legs == s.legs && s'.fired == s.fired && s.lastId <= s'.lastId && s.touched <= s'.touched && s.done <= s'.done
    && (forall l :: l in s.legs && l !in s.fired && !s.legs[l] ==> (l in s'.touched <==> l in s.touched))
    && (forall l :: l in s.legs && l !in s.fired && s.legs[l] ==> (l in s'.done <==> l in s.done))
    && (forall l :: l in s'.orders && s'.orders[l].cond.Oto? ==> l in s.orders && s.orders[l].cond == s'.orders[l].cond)
    && (forall l :: l in s.legs && l in s'.orders && l !in s.fired ==>
      l in s.orders && s'.orders[l].cond == s.orders[l].cond)
    && (forall t :: t in s'.queue ==> t in s.queue || t.id > s.lastId)
    && (forall x :: x in s'.orders || x in s'.done ==> x in s.orders || x in s.done || x <= s'.lastId)
  }

  lemma UneventfulLegged(s: State, s': State)
    requires Legged(s) && Uneventful(s, s')
    ensures Legged(s')
  {
  }

  lemma PushedIn(queue: seq<Ticket>, t: Ticket)
    ensures forall u :: u in queue + [t] <==> u in queue || u == t
  {
    assert t in queue + [t];
  }

  lemma FiredOnce(fired: seq<nat>, id: nat)
    requires Distinct(fired) && id !in fired
    ensures Distinct(fired + [id]) && forall x :: x in fired + [id] <==> x in fired || x == id
  {
    assert id in fired + [id];
  }

  /** id fires: it has met its condition, it does not wait any more, and one order was queued. */
  lemma FiresLegged(s: State, s': State, id: nat)
    requires Legged(s) && id in s.legs && id in s.orders && id !in s.fired && s'.legs == s.legs
      && s'.fired == s.fired + [id]
    requires s.lastId <= s'.lastId && s'.touched == s.touched + {id} && s.done <= s'.done <= s.done + {id}
      && Met(s', id)
    requires forall l :: l in s'.orders && l != id ==> l in s.orders && s'.orders[l] == s.orders[l]
    requires id in s'.orders ==> s'.orders[id].cond.Free?
    requires forall t :: t in s'.queue ==> t in s.queue || t.id > s.lastId
    ensures Legged(s')
  {
    FiredOnce(s.fired, id);
  }

  /* ---- hits and triggers ---- */

  lemma HitFires(s: State, id: nat, amount: nat)
    requires Legged(s) && CanHit(s, id, amount) && s.orders[id].cond.Oto?
      && (!s.orders[id].cond.full || amount == s.orders[id].sz)
    ensures Legged(Hit(s, id, amount))
  {
    PushedIn(s.queue, Basic(s.lastId + 1, s.orders[id].cond.next));
    FiresLegged(s, Hit(s, id, amount), id);
  }

  lemma HitWaits(s: State, id: nat, amount: nat)
    requires Legged(s) && CanHit(s, id, amount)
      && (s.orders[id].cond.Free? || s.orders[id].cond.Oco? || s.orders[id].cond.Oto?)
    requires s.orders[id].cond.Oto? ==> s.orders[id].cond.full && amount < s.orders[id].sz
    ensures Legged(Hit(s, id, amount))
  {
    hide Distinct;
    UneventfulLegged(s, Hit(s, id, amount));
  }

  lemma HitPairs(s: State, id: nat, amount: nat)
    requires Legged(s) && CanHit(s, id, amount) && (s.orders[id].cond.Exit? || s.orders[id].cond.Entry?)
    ensures Legged(Hit(s, id, amount))
  {
    hide Legged, Handled, Uneventful;
    var s1 := Handled(Traded(s, id, amount), id, amount);
    if s.orders[id].cond.Exit? {
      ExitUneventful(s, id, amount);
    } else {
      EntryUneventful(s, id, amount);
    }
    if id in s1.orders && amount <= s1.orders[id].sz {
      ShrunkUneventful(s, s1, id, amount);
    }
    DoneUneventful(s, Dealt(s, id, amount), id, amount == s.orders[id].sz);
    UneventfulLegged(s, Hit(s, id, amount));
  }

  lemma ExitUneventful(s: State, id: nat, amount: nat)
    requires Legged(s) && CanHit(s, id, amount) && s.orders[id].cond.Exit?
    ensures Uneventful(s, Handled(Traded(s, id, amount), id, amount)) && (id in s.legs ==> id in s.fired)
    ensures id <= s.lastId
  {
    var p := s.orders[id].cond.partner;
    var s0 := Touch(s, id);
    var s1 := if amount == s.orders[id].sz then s0.(orders := Close(s.orders, id))
      else if p in s.orders && amount <= s.orders[p].sz then s0.(orders := Shrunk(s.orders, p, amount)) else s0;
    assert Handled(s0, id, amount) == ExitFilled(s1, id, amount);
    hide Handled, ExitFilled, Distinct;
    FilledUneventful(s, s1, id, amount);
  }

  lemma FilledUneventful(s: State, s': State, id: nat, amount: nat)
    requires Uneventful(s, s')
    ensures Uneventful(s, ExitFilled(s', id, amount))
  {
  }

  lemma ShrunkUneventful(s: State, s': State, id: nat, amount: nat)
    requires Uneventful(s, s') && id in s'.orders && amount <= s'.orders[id].sz
    ensures Uneventful(s, s'.(orders := Shrunk(s'.orders, id, amount)))
  {
  }

  lemma DoneUneventful(s: State, s': State, id: nat, over: bool)
    requires Uneventful(s, s') && (id in s.legs ==> id in s.fired) && id <= s.lastId
    ensures Uneventful(s, Finished(s', id, over))
  {
  }

  lemma EntryUneventful(s: State, id: nat, amount: nat)
    requires Legged(s) && CanHit(s, id, amount) && s.orders[id].cond.Entry?
    ensures Uneventful(s, Handled(Traded(s, id, amount), id, amount)) && (id in s.legs ==> id in s.fired)
    ensures id <= s.lastId
  {
    hide Distinct;
    PushedIn(s.queue, Exits(s.lastId + 1, id, amount));
  }

  /** A fill that meets the condition of a leg queues its contingent order, and only such a fill does. */
  lemma HitQueues(s: State, id: nat, amount: nat)
    requires CanHit(s, id, amount)
    ensures var s' := Hit(s, id, amount); var o := s.orders[id];
      if o.cond.Oto? && (!o.cond.full || amount == o.sz) then
        s'.fired == s.fired + [id] && s'.queue == s.queue + [Basic(s.lastId + 1, o.cond.next)]
      else s'.fired == s.fired && (!o.cond.Entry? ==> s'.queue == s.queue)
  {
  }

  lemma HitLegged(s: State, id: nat, amount: nat)
    requires Legged(s) && CanHit(s, id, amount)
    ensures Legged(Hit(s, id, amount))
    ensures var s' := Hit(s, id, amount); var o := s.orders[id];
      if o.cond.Oto? && (!o.cond.full || amount == o.sz) then
        s'.fired == s.fired + [id] && s'.queue == s.queue + [Basic(s.lastId + 1, o.cond.next)]
      else s'.fired == s.fired && (!o.cond.Entry? ==> s'.queue == s.queue)
  {
    hide Legged, Hit;
    HitQueues(s, id, amount);
    match s.orders[id].cond
    case Oto(_, full) =>
      if !full || amount == s.orders[id].sz {
        HitFires(s, id, amount);
      } else {
        HitWaits(s, id, amount);
      }
    case Entry(_, _) => HitPairs(s, id, amount);
    case Exit(_) => HitPairs(s, id, amount);
    case _ => HitWaits(s, id, amount);
  }

  lemma TriggerFires(s: State, id: nat, market: bool)
    requires Legged(s) && CanTrigger(s, id) && s.orders[id].cond.Oto?
    ensures Legged(Triggered(s, id, market))
  {
    hide Distinct;
    var o := s.orders[id];
    var t := Basic(s.lastId + 1, Terms(if market then Market else Limit, o.sz));
    PushedIn(s.queue, t);
    PushedIn(s.queue + [t], Basic(s.lastId + 2, o.cond.next));
    FiresLegged(s, Triggered(s, id, market), id);
  }

  lemma TriggerWaits(s: State, id: nat, market: bool)
    requires Legged(s) && CanTrigger(s, id) && !s.orders[id].cond.Oto?
    ensures Legged(Triggered(s, id, market))
  {
    var s1 := Unlinked(Touch(s, id), id);
    var terms := Terms(if market then Market else Limit, s.orders[id].sz);
    UnlinkedUneventful(s, id);
    hide Legged, Unlinked;
    PushUneventful(s, s1, terms, id);
    DoneUneventful(s, Sprung(s, id, market), id, true);
    UneventfulLegged(s, Triggered(s, id, market));
  }

  lemma UnlinkedUneventful(s: State, id: nat)
    requires Legged(s) && CanTrigger(s, id) && !s.orders[id].cond.Oto?
    ensures var s' := Unlinked(Touch(s, id), id);
      Uneventful(s, s') && (id in s.legs ==> id in s.fired) && id <= s.lastId
  {
    hide Distinct;
  }

  lemma PushUneventful(s: State, s': State, terms: Terms, id: nat)
    requires Uneventful(s, s')
    ensures var s2 := Push(s', terms); Uneventful(s, s2.(orders := s2.orders - {id}))
  {
    PushedIn(s'.queue, Basic(s'.lastId + 1, terms));
  }

  /** A triggered stop becomes a queued order, followed by the order contingent on it, if any. */
  lemma TriggerQueues(s: State, id: nat, market: bool)
    requires CanTrigger(s, id)
    ensures var s' := Triggered(s, id, market); var o := s.orders[id];
      var t := Basic(s.lastId + 1, Terms(if market then Market else Limit, o.sz));
      if o.cond.Oto? then s'.fired == s.fired + [id] && s'.queue == s.queue + [t, Basic(s.lastId + 2, o.cond.next)]
      else s'.fired == s.fired && s'.queue == s.queue + [t]
  {
  }

  lemma TriggeredLegged(s: State, id: nat, market: bool)
    requires Legged(s) && CanTrigger(s, id)
    ensures Legged(Triggered(s, id, market))
    ensures var s' := Triggered(s, id, market); var o := s.orders[id];
      var t := Basic(s.lastId + 1, Terms(if market then Market else Limit, o.sz));
      if o.cond.Oto? then s'.fired == s.fired + [id] && s'.queue == s.queue + [t, Basic(s.lastId + 2, o.cond.next)]
      else s'.fired == s.fired && s'.queue == s.queue + [t]
  {
    hide Legged, Triggered;
    TriggerQueues(s, id, market);
    if s.orders[id].cond.Oto? {
      TriggerFires(s, id, market);
    } else {
      TriggerWaits(s, id, market);
    }
  }

  lemma {:induction false} HitsLegged(s: State, left: nat, hits: seq<(nat, nat)>)
    requires Legged(s)
    ensures Legged(RoutedHits(s, left, hits).0)
    decreases |hits|
  {
    hide Legged, Hit;
    if hits != [] {
      if CanHit(s, hits[0].0, hits[0].1) && hits[0].1 <= left {
        HitLegged(s, hits[0].0, hits[0].1);
        HitsLegged(Hit(s, hits[0].0, hits[0].1), left - hits[0].1, hits[1..]);
      } else {
        HitsLegged(s, left, hits[1..]);
      }
    }
  }

  lemma {:induction false} TriggersLegged(s: State, ts: seq<(nat, bool)>)
    requires Legged(s)
    ensures Legged(RoutedTriggers(s, ts))
    decreases |ts|
  {
    hide Legged, Triggered;
    if ts != [] {
      if CanTrigger(s, ts[0].0) {
        TriggeredLegged(s, ts[0].0, ts[0].1);
        TriggersLegged(Triggered(s, ts[0].0, ts[0].1), ts[1..]);
      } else {
        TriggersLegged(s, ts[1..]);
      }
    }
  }

  /** However an order is matched, no leg fires twice or without its condition met. */
  lemma RoutedLegged(s: State, sz: nat, call: Call)
    requires Legged(s)
    ensures Legged(Routed(s, sz, call).0) && Routed(s, sz, call).0.legs == s.legs
      && s.lastId <= Routed(s, sz, call).0.lastId
  {
    hide Legged;
    HitsLegged(s, sz, call.hits);
    var h := RoutedHits(s, sz, call.hits);
    TriggersLegged(h.0, call.triggers);
    HitsSame(s, sz, call.hits);
    TriggersSame(h.0, call.triggers);
  }

  lemma {:induction false} HitsSame(s: State, left: nat, hits: seq<(nat, nat)>)
    ensures var s' := RoutedHits(s, left, hits).0; s'.legs == s.legs && s.lastId <= s'.lastId
    decreases |hits|
  {
    if hits != [] {
      if CanHit(s, hits[0].0, hits[0].1) && hits[0].1 <= left {
        HitSame(s, hits[0].0, hits[0].1);
        hide Hit;
        HitsSame(Hit(s, hits[0].0, hits[0].1), left - hits[0].1, hits[1..]);
      } else {
        HitsSame(s, left, hits[1..]);
      }
    }
  }

  lemma HitSame(s: State, id: nat, amount: nat)
    requires CanHit(s, id, amount)
    ensures Hit(s, id, amount).legs == s.legs && s.lastId <= Hit(s, id, amount).lastId
  {
    HandledSame(s, id, amount);
    hide Handled;
  }

  lemma HandledSame(s: State, id: nat, amount: nat)
    requires CanHit(s, id, amount)
    ensures var s' := Handled(Traded(s, id, amount), id, amount); s'.legs == s.legs && s.lastId <= s'.lastId
  {
    HandledFrame(Traded(s, id, amount), id, amount);
    hide Handled;
  }

  lemma {:induction false} TriggersSame(s: State, ts: seq<(nat, bool)>)
    ensures var s' := RoutedTriggers(s, ts); s'.legs == s.legs && s.lastId <= s'.lastId
    decreases |ts|
  {
    if ts != [] {
      if CanTrigger(s, ts[0].0) {
        var s1 := Triggered(s, ts[0].0, ts[0].1);
        assert s1.legs == s.legs && s.lastId <= s1.lastId;
        hide Triggered;
        TriggersSame(s1, ts[1..]);
      } else {
        TriggersSame(s, ts[1..]);
      }
    }
  }

  /* ---- orders enter ---- */

  lemma NewIdLegged(s: State)
    requires Legged(s)
    ensures Legged(NewId(s)) && s.lastId + 1 !in s.legs
  {
  }

  lemma RestLegged(s: State, id: nat, o: Order)
    requires Legged(s) && id !in s.legs && id <= s.lastId && !o.cond.Oto?
    ensures Legged(Rest(s, id, o))
  {
    hide Distinct;
  }

  lemma TakerLegged(s: State, id: nat, over: bool)
    requires Legged(s) && id !in s.legs && id <= s.lastId
    ensures Legged(Finished(Touch(s, id), id, over))
  {
    hide Distinct;
  }

  lemma InjectedLegged(s: State, id: nat, terms: Terms, call: Call)
    requires Legged(s) && id !in s.legs && id <= s.lastId
    ensures var r := Injected(s, id, terms, call); Legged(r.s) && r.s.legs == s.legs && s.lastId <= r.s.lastId
  {
    hide Legged, Routed, Finished, Touch;
    if terms.kind.Stop? {
      RestLegged(s, id, Order(true, terms.sz, Free));
    } else {
      var r := Routed(s, terms.sz, call);
      RoutedLegged(s, terms.sz, call);
      var s1 := Taken(s, id, terms.sz, call).0;
      if r.1 > 0 {
        TakerLegged(r.0, id, r.1 == terms.sz);
        TakerSame(r.0, id, r.1 == terms.sz);
      }
      if r.1 < terms.sz {
        RestLegged(s1, id, Order(false, terms.sz - r.1, Free));
      }
    }
  }

  lemma TakerSame(s: State, id: nat, over: bool)
    ensures var s' := Finished(Touch(s, id), id, over); s'.legs == s.legs && s'.lastId == s.lastId
  {
  }

  lemma LinkedLegged(s: State, a: nat, b: nat, full: bool)
    requires Legged(s) && a !in s.legs && b !in s.legs
    ensures a in s.orders && b in s.orders ==> Legged(LinkedUp(s, a, b, full))
    ensures Legged(OcoClosed(s, a, b, full))
  {
    hide Distinct;
  }

  lemma OcoLegged(s: State, first: Terms, second: Terms, full: bool, c1: Call, c2: Call)
    requires Legged(s)
    ensures Legged(OcoEntered(s, first, second, full, c1, c2).s)
  {
    hide Legged, Injected, NewId, LinkedUp, OcoClosed;
    var id1 := s.lastId + 1;
    NewIdLegged(s);
    NewIdIs(s);
    InjectedLegged(NewId(s), id1, first, c1);
    var s1 := Injected(NewId(s), id1, first, c1).s;
    NewIdLegged(s1);
    NewIdIs(s1);
    InjectedLegged(NewId(s1), s1.lastId + 1, second, c2);
    LinkedLegged(Injected(NewId(s1), s1.lastId + 1, second, c2).s, id1, s1.lastId + 1, full);
  }

  lemma NewIdIs(s: State)
    ensures NewId(s).lastId == s.lastId + 1 && NewId(s).legs == s.legs
  {
  }

  /** A leg that does not meet its condition on the way in waits. */
  lemma WaitsLegged(s: State, id: nat, next: Terms, full: bool)
    requires Legged(s) && id !in s.legs && id in s.orders && id <= s.lastId && NotQueued(s, id)
      && (if full then id !in s.done else id !in s.touched)
    ensures Legged(Conditioned(s.(legs := s.legs[id := full]), id, next, full))
  {
    assert forall t :: t in s.queue ==> t.id != id;
    hide Distinct;
  }

  /** A leg that meets its condition on the way in fires at once. */
  lemma AtOnceLegged(s: State, id: nat, next: Terms, full: bool)
    requires Legged(s) && id !in s.legs && id <= s.lastId && NotQueued(s, id)
      && (if full then id in s.done else id in s.touched)
    requires id in s.orders ==> s.orders[id].cond.Free?
    ensures var s1 := s.(legs := s.legs[id := full]); Legged(Push(s1.(fired := s1.fired + [id]), next))
  {
    FiredOnce(s.fired, id);
    assert forall t :: t in s.queue ==> t.id != id;
    PushedIn(s.queue, Basic(s.lastId + 1, next));
    hide Distinct;
  }

  /** The leg once it has been matched. */
  lemma LegEnters(s: State, leg: Terms, c: Call)
    requires Legged(s) && Inv(s, 0, 0) && leg.sz > 0
    ensures var id := s.lastId + 1;
      var i := Injected(NewId(s), id, leg, c);
      && Legged(i.s) && i.s.legs == s.legs && id !in s.legs && id <= i.s.lastId && NotQueued(i.s, id)
        && i.filled <= leg.sz
      && (id in i.s.done <==> i.filled == leg.sz) && (id in i.s.touched <==> i.filled > 0)
      && (id in i.s.orders ==> i.thrown || i.s.orders[id].cond.Free?)
      && (!i.thrown && i.filled < leg.sz ==> id in i.s.orders)
  {
    hide Inv, Injected, Unpaired, Potential;
    var id := s.lastId + 1;
    NewIdLegged(s);
    NewIdOk(s, 0, 0);
    InjectedOk(NewId(s), id, leg, c);
    NotDoneYet(s);
    hide Legged, Fresh;
    InjectedDone(NewId(s), id, leg, c);
    InjectedLegged(NewId(s), id, leg, c);
    AfterFacts(NewId(s), Injected(NewId(s), id, leg, c).s, id);
  }

  lemma NotDoneYet(s: State)
    requires Legged(s)
    ensures s.lastId + 1 !in s.done
  {
  }

  lemma LegFired(s: State, id: nat)
    requires Legged(s) && id !in s.legs
    ensures id !in s.fired && id in s.fired + [id]
  {
    assert (s.fired + [id])[|s.fired|] == id;
  }

  /** Accepting a one-triggers-other order: the leg is accounted for, and has fired already if and
      only if it met its condition on the way in. */
  lemma OtoLegged(s: State, leg: Terms, next: Terms, full: bool, c: Call)
    requires Legged(s) && Inv(s, 0, 0) && leg.sz > 0
    ensures var r := OtoEntered(s, leg, next, full, c);
      var i := Injected(NewId(s), s.lastId + 1, leg, c);
      && Legged(r.s) && r.id == s.lastId + 1
      && (!r.thrown ==>
           && r.s.legs == s.legs[r.id := full]
           && (r.id in r.s.fired <==> Immediate(i.filled, leg.sz, full))
           && (r.id in r.s.fired ==> |r.s.queue| > 0 && r.s.queue[|r.s.queue| - 1] == Basic(r.s.lastId, next))
           && (r.id !in r.s.fired ==> r.id in r.s.orders && r.s.orders[r.id].cond == Oto(next, full)))
  {
    hide Inv, Injected, NewId, Legged, NotQueued;
    var id := s.lastId + 1;
    var i := Injected(NewId(s), id, leg, c);
    LegEnters(s, leg, c);
    if !i.thrown {
      LegFired(i.s, id);
      if Immediate(i.filled, leg.sz, full) || id !in i.s.orders {
        AtOnceLegged(i.s, id, next, full);
      } else {
        WaitsLegged(i.s, id, next, full);
      }
    }
  }

  lemma HitDone(s: State, id: nat, amount: nat, x: nat)
    requires CanHit(s, id, amount) && x !in s.orders && x !in s.done
    ensures var s' := Hit(s, id, amount); x !in s'.orders && x !in s'.done
  {
    DealtDone(s, id, amount, x);
    hide Dealt;
  }

  lemma DealtDone(s: State, id: nat, amount: nat, x: nat)
    requires CanHit(s, id, amount) && x !in s.orders && x !in s.done
    ensures var s' := Dealt(s, id, amount); x !in s'.orders && x !in s'.done
  {
    HandledDone(s, id, amount, x);
    hide Handled;
  }

  lemma HandledDone(s: State, id: nat, amount: nat, x: nat)
    requires CanHit(s, id, amount) && x !in s.orders && x !in s.done
    ensures var s' := Handled(Traded(s, id, amount), id, amount); x !in s'.orders && x !in s'.done
  {
    HandledFrame(Traded(s, id, amount), id, amount);
    hide Handled;
  }

  lemma TriggerDone(s: State, id: nat, market: bool, x: nat)
    requires CanTrigger(s, id) && x !in s.orders && x !in s.done
    ensures var s' := Triggered(s, id, market); x !in s'.orders && x !in s'.done
  {
  }

  lemma {:induction false} HitsDone(s: State, left: nat, hits: seq<(nat, nat)>, x: nat)
    requires x !in s.orders && x !in s.done
    ensures var s' := RoutedHits(s, left, hits).0; x !in s'.orders && x !in s'.done
    decreases |hits|
  {
    if hits != [] {
      if CanHit(s, hits[0].0, hits[0].1) && hits[0].1 <= left {
        HitDone(s, hits[0].0, hits[0].1, x);
        hide Hit;
        HitsDone(Hit(s, hits[0].0, hits[0].1), left - hits[0].1, hits[1..], x);
      } else {
        HitsDone(s, left, hits[1..], x);
      }
    }
  }

  lemma {:induction false} TriggersDone(s: State, ts: seq<(nat, bool)>, x: nat)
    requires x !in s.orders && x !in s.done
    ensures var s' := RoutedTriggers(s, ts); x !in s'.orders && x !in s'.done
    decreases |ts|
  {
    if ts != [] {
      if CanTrigger(s, ts[0].0) {
        TriggerDone(s, ts[0].0, ts[0].1, x);
        hide Triggered;
        TriggersDone(Triggered(s, ts[0].0, ts[0].1), ts[1..], x);
      } else {
        TriggersDone(s, ts[1..], x);
      }
    }
  }

  lemma RoutedDone(s: State, sz: nat, call: Call, x: nat)
    requires x !in s.orders && x !in s.done
    ensures x !in Routed(s, sz, call).0.done
  {
    HitsDone(s, sz, call.hits, x);
    TriggersDone(RoutedHits(s, sz, call.hits).0, call.triggers, x);
  }

  /** An order entering is done with if and only if it was filled to the last unit. */
  lemma InjectedDone(s: State, id: nat, terms: Terms, call: Call)
    requires Inv(s, 0, 0) && Fresh(s, id) && id !in s.done && terms.sz > 0
    ensures var r := Injected(s, id, terms, call); id in r.s.done <==> r.filled == terms.sz
  {
    if !terms.kind.Stop? {
      hide Inv, Routed;
      RoutedDone(s, terms.sz, call, id);
    }
  }

  /* ---- brackets, pulls and the queue ---- */

  lemma EntryLegged(s: State, sz: nat, c: Call)
    requires Legged(s)
    ensures Legged(EntryEntered(s, sz, c).s)
  {
    hide Legged, NewId, Routed, EntryOpened, EntryRests;
    var id := s.lastId + 1;
    NewIdLegged(s);
    NewIdIs(s);
    RoutedLegged(NewId(s), sz, c);
    var r := Routed(NewId(s), sz, c);
    OpensLegged(r.0, id, r.1);
    if r.1 < sz {
      EntryRestsLegged(EntryOpened(r.0, id, r.1), id, sz - r.1);
    }
  }

  lemma OpensLegged(s: State, id: nat, filled: nat)
    requires Legged(s) && id !in s.legs && id <= s.lastId
    ensures var s' := EntryOpened(s, id, filled); Legged(s') && s'.legs == s.legs && s.lastId <= s'.lastId
  {
    PushedIn(s.queue, Exits(s.lastId + 1, id, filled));
    hide Distinct;
    UneventfulLegged(s, EntryOpened(s, id, filled));
  }

  lemma EntryRestsLegged(s: State, id: nat, sz: nat)
    requires Legged(s) && id !in s.legs && id <= s.lastId
    ensures Legged(EntryRests(s, id, sz))
  {
    hide Distinct;
  }

  lemma ExitsLegged(s: State, t: nat, e: nat, sz: nat, c: Call)
    requires Legged(s) && t !in s.legs && Inv(s, t, sz) && sz > 0 && t in s.exits && s.exits[t].entry == e
      && 0 < t <= s.lastId
    requires NotQueued(s, t) && Unpaired(s, t) && t !in s.fills
    ensures Legged(ExitsEntered(s, t, e, sz, c))
  {
    hide Legged, Routed, TargetTaken, PairRests, Inv, NotQueued, Unpaired, Onward;
    RoutedLegged(s, sz, c);
    var r := Routed(s, sz, c);
    WorkFacts(s, t, sz);
    RoutedOk(s, sz, c, t, sz);
    OnwardExit(s, r.0, t);
    EntryStill(r.0, t, e, sz);
    TakenLegged(r.0, t, r.1, e);
    if r.1 < sz {
      PairLegged(TargetTaken(r.0, t, r.1), t, e, sz - r.1);
    }
  }

  lemma EntryStill(s: State, t: nat, e: nat, sz: nat)
    requires Inv(s, t, sz) && t in s.exits && s.exits[t].entry == e
    ensures e in s.orders ==> s.orders[e].cond.Entry?
  {
    hide Symmetric, Exclusive, Booked, Positioned, Numbered;
    ActiveEntry(s, t, e);
  }

  lemma TakenLegged(s: State, t: nat, filled: nat, e: nat)
    requires Legged(s) && t !in s.legs && t <= s.lastId
    ensures var s' := TargetTaken(s, t, filled);
      Legged(s') && s'.legs == s.legs && s'.orders == s.orders && s'.lastId == s.lastId
  {
    hide Distinct;
  }

  lemma PairLegged(s: State, t: nat, e: nat, sz: nat)
    requires Legged(s) && t !in s.legs && t <= s.lastId && (e in s.orders ==> s.orders[e].cond.Entry?)
    ensures Legged(PairRests(s, t, e, sz))
  {
    hide Distinct;
  }

  lemma WithdrawnLegged(s: State, id: nat)
    requires Legged(s) && id in s.orders
    ensures Legged(Withdrawn(s, id))
  {
    WithdrawnUneventful(s, id);
    hide Legged, Uneventful, Withdrawn;
    UneventfulLegged(s, Withdrawn(s, id));
  }

  /** A pull only takes orders away. */
  lemma WithdrawnUneventful(s: State, id: nat)
    requires Legged(s) && id in s.orders
    ensures Uneventful(s, Withdrawn(s, id))
  {
    var s' := Withdrawn(s, id);
    LeggedIds(s);
    assert s'.legs == s.legs && s'.fired == s.fired && s'.touched == s.touched && s'.done == s.done
      && s'.queue == s.queue && s'.lastId == s.lastId
      && (forall x :: x in s'.orders ==> x in s.orders && s'.orders[x] == s.orders[x]) by {
      hide Legged;
    }
    hide Withdrawn, Legged;
  }

  lemma LeggedIds(s: State)
    requires Legged(s)
    ensures forall x :: x in s.orders || x in s.done ==> x <= s.lastId
  {
    hide Distinct;
  }

  lemma PoppedLegged(s: State)
    requires Legged(s) && s.queue != []
    ensures Legged(Popped(s)) && s.queue[0].id !in s.legs
  {
    assert forall t :: t in s.queue[1..] ==> t in s.queue;
    assert s.queue[0] in s.queue;
    hide Distinct;
  }

  lemma DroppedLegged(s: State)
    requires Legged(s) && s.queue != []
    ensures Legged(Dropped(s))
  {
    PoppedLegged(s);
    hide Distinct;
  }
}
