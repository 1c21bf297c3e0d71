/** The handlers of linked orders, and the execution window that runs them. */
module Handlers {
  import opened Linked
  import opened Routing
  import opened Contingent
  import opened Legs
  import opened Couples
  import opened Windows

  class LinkedBook {
    var orders: map<nat, Order>
    var queue: seq<Ticket>
    var lastId: nat
    ghost var touched: set<nat>
    ghost var pairs: set<(nat, nat)>
    ghost var spoilt: set<(nat, nat)>
    ghost var exits: map<nat, Pair>
    ghost var fills: map<nat, nat>
    ghost var done: set<nat>
    ghost var legs: map<nat, bool>
    ghost var fired: seq<nat>

    constructor ()
      ensures Idle() && S() == Beginning()
    {
      orders, queue, lastId := map[], [], 0;
      touched, pairs, spoilt, exits, fills := {}, {}, {}, map[], map[];
      done, legs, fired := {}, map[], [];
    }

    ghost function S(): State
      reads this
    {
      State(orders, queue, lastId, touched, pairs, spoilt, exits, fills, done, legs, fired)
    }

    /** What holds between execution windows. */
    ghost predicate Idle()
      reads this
    {
      Inv(S(), 0, 0) && Legged(S()) && queue == []
    }

    /** The order is free, and the one it was linked to is pulled. */
    method HandleOco(id: nat)
      requires id in orders && (orders[id].cond.Oco? || orders[id].cond.Exit?) && orders[id].cond.partner != id
      modifies `orders
      ensures orders == Close(old(orders), id)
      ensures var p := old(orders)[id].cond.partner;
        && p !in orders && id in orders && orders[id] == old(orders)[id].(cond := Free)
        && forall x :: x != id && x != p ==>
          (x in orders <==> x in old(orders)) && (x in orders ==> orders[x] == old(orders)[x])
    {
      orders := orders - {orders[id].cond.partner};
      orders := orders[id := orders[id].(cond := Free)];
    }

    method PushInternal(terms: Terms)
      modifies `queue, `lastId
      ensures S() == Push(old(S()), terms)
    {
      lastId := lastId + 1;
      queue := queue + [Basic(lastId, terms)];
    }

    /** The contingent order is queued, once. */
    method HandleOto(id: nat)
      requires id in orders && orders[id].cond.Oto?
      modifies `orders, `queue, `lastId, `fired
      ensures S() == Fire(old(S()), id)
    {
      fired := fired + [id];
      PushInternal(orders[id].cond.next);
      orders := orders[id := orders[id].(cond := Free)];
    }

    /** A fill of an entry: its active exits grow, or a new pair is queued. */
    method HandleBracket(id: nat, amount: nat)
      requires id in orders && orders[id].cond.Entry?
        && (orders[id].cond.target != 0 ==> orders[id].cond.target in exits)
      modifies `orders, `queue, `lastId, `exits
      ensures S() == Open(old(S()), id, amount)
      ensures var l, t := old(orders)[id].cond.loss, old(orders)[id].cond.target;
        if t != 0 && l in old(orders) && t in old(orders) then
          && queue == old(queue) && orders.Keys == old(orders).Keys
          && (forall x :: x in orders && x != l && x != t ==> orders[x] == old(orders)[x])
          && (l != t ==> orders[l].sz == old(orders)[l].sz + amount && orders[t].sz == old(orders)[t].sz + amount)
        else orders == old(orders) && lastId == old(lastId) + 1 && queue == old(queue) + [Exits(lastId, id, amount)]
    {
      var l, t := orders[id].cond.loss, orders[id].cond.target;
      if t != 0 && l in orders && t in orders {
        orders := orders[l := Grown(orders[l], amount)][t := Grown(orders[t], amount)];
        exits := exits[t := exits[t].(size := exits[t].size + amount)];
      } else {
        ExecBracket(id, amount);
      }
    }

    /** A partial fill of a target shrinks the loss order. */
    method HandleActiveBracket(id: nat, amount: nat)
      requires id in orders && orders[id].cond.Exit? && orders[id].cond.partner in orders
        && amount < orders[orders[id].cond.partner].sz
      modifies `orders
      ensures orders == Shrunk(old(orders), old(orders[id]).cond.partner, amount)
    {
      var p := orders[id].cond.partner;
      orders := orders[p := orders[p].(sz := orders[p].sz - amount)];
    }

    ghost method TouchTaker(id: nat)
      modifies `touched
      ensures S() == Touch(old(S()), id)
    {
      touched := touched + {id};
    }

    method RestOrder(id: nat, o: Order)
      modifies `orders
      ensures S() == Rest(old(S()), id, o)
    {
      orders := orders[id := o];
    }

    /** A new pair of exits is queued for a fill of an entry. */
    method ExecBracket(entry: nat, filled: nat)
      modifies `queue, `lastId, `exits
      ensures S() == OpenNew(old(S()), entry, filled)
    {
      lastId := lastId + 1;
      queue := queue + [Exits(lastId, entry, filled)];
      exits := exits[lastId := Pair(entry, filled, 0, 0, 0)];
    }

    method RestEntry(id: nat, sz: nat)
      modifies `orders, `fills
      ensures S() == EntryRests(old(S()), id, sz)
    {
      orders := orders[id := Order(false, sz, Entry(0, 0))];
      fills := Add(fills, id, 0);
    }

    /** What is left of a target order rests with its loss order, and the entry is told. */
    method RestPair(t: nat, e: nat, sz: nat)
      modifies `orders, `lastId
      ensures S() == PairRests(old(S()), t, e, sz)
    {
      lastId := lastId + 1;
      if e in orders {
        orders := orders[e := orders[e].(cond := Entry(lastId, t))];
      }
      orders := orders[t := Order(false, sz, Exit(lastId))][lastId := Order(true, sz, Exit(t))];
    }

    ghost method TakeTarget(t: nat, filled: nat)
      modifies `exits, `touched
      ensures S() == TargetTaken(old(S()), t, filled)
    {
      if filled > 0 {
        exits := ExitFilled(S(), t, filled).exits;
        touched := touched + {t};
      }
    }

    method OpenEntry(id: nat, filled: nat)
      modifies `queue, `lastId, `exits, `fills, `touched
      ensures S() == EntryOpened(old(S()), id, filled)
    {
      hide OpenNew;
      if filled > 0 {
        TouchTaker(id);
        fills := Add(fills, id, filled);
        ExecBracket(id, filled);
      }
    }

    method LinkOrders(a: nat, b: nat, full: bool)
      requires a in orders && b in orders
      modifies `orders, `pairs
      ensures S() == LinkedUp(old(S()), a, b, full)
    {
      pairs := if full then pairs else pairs + {(a, b)};
      orders := orders[a := orders[a].(cond := Oco(b, full))][b := orders[b].(cond := Oco(a, full))];
    }

    /** The second order met the condition at once: the first is pulled. */
    method ExecOco(a: nat, b: nat, full: bool)
      modifies `orders, `pairs, `spoilt
      ensures S() == OcoClosed(old(S()), a, b, full)
    {
      spoilt := if !full && a in touched then spoilt + {(a, b)} else spoilt;
      pairs := if full then pairs else pairs + {(a, b)};
      orders := orders - {a};
    }

    /** The condition of an order, if it is met by a fill of amount. */
    method HandleFill(id: nat, amount: nat)
      requires CanHit(S(), id, amount) && WellLinked(S(), id)
      modifies `orders, `queue, `lastId, `exits, `fired
      ensures S() == Handled(old(S()), id, amount)
    {
      var o := orders[id];
      match o.cond {
        case Free =>
        case Oco(_, full) =>
          if !full || amount == o.sz {
            HandleOco(id);
          }
        case Oto(_, full) =>
          if !full || amount == o.sz {
            HandleOto(id);
          }
        case Entry(_, _) => HandleBracket(id, amount);
        case Exit(_) =>
          if amount == o.sz {
            HandleOco(id);
          } else {
            HandleActiveBracket(id, amount);
          }
          exits := ExitFilled(S(), id, amount).exits;
      }
    }

    /** A resting order trades with an incoming one. */
    method HitOrder(id: nat, amount: nat, ghost w: nat, ghost left: nat)
      requires Inv(S(), w, left) && CanHit(S(), id, amount)
      modifies `orders, `queue, `lastId, `exits, `fills, `touched, `done, `fired
      ensures S() == Hit(old(S()), id, amount)
      ensures Inv(S(), w, left)
    {
      HitOk(S(), id, amount, w, left);
      hide Inv, Dealt;
      ghost var over := amount == orders[id].sz;
      WellOrdered(S(), id, amount, w, left);
      DealOrder(id, amount);
      done := if over then done + {id} else done;
    }

    /** The trade is noted, the condition is looked at, then the order shrinks. */
    method DealOrder(id: nat, amount: nat)
      requires CanHit(S(), id, amount) && WellLinked(S(), id)
      modifies `orders, `queue, `lastId, `exits, `fills, `touched, `fired
      ensures S() == Dealt(old(S()), id, amount)
    {
      hide Handled, CanHit, WellLinked;
      StillThere(S(), id, amount);
      NoteTrade(id, amount);
      HandleFill(id, amount);
      if amount == orders[id].sz {
        orders := orders - {id};
      } else {
        orders := orders[id := orders[id].(sz := orders[id].sz - amount)];
      }
    }

    ghost method NoteTrade(id: nat, amount: nat)
      requires CanHit(S(), id, amount)
      modifies `touched, `fills
      ensures S() == Traded(old(S()), id, amount)
    {
      touched := touched + {id};
      fills := if orders[id].cond.Entry? then Add(fills, id, amount) else fills;
    }

    /** A resting stop is triggered: what it is linked to is pulled, it becomes a new order,
        and the order contingent on it follows. */
    method TriggerStop(id: nat, market: bool, ghost w: nat, ghost left: nat)
      requires Inv(S(), w, left) && CanTrigger(S(), id)
      modifies `orders, `queue, `lastId, `exits, `touched, `done, `fired
      ensures S() == Triggered(old(S()), id, market) && Inv(S(), w, left)
    {
      hide Inv, Close, Potential;
      TriggeredOk(S(), id, market, w, left);
      LinkFacts(S(), id, w, left);
      TargetFacts(S(), id, w, left);
      var o := orders[id];
      TouchTaker(id);
      CloseLinked(id);
      PushInternal(Terms(if market then Market else Limit, o.sz));
      if o.cond.Oto? {
        HandleOto(id);
      }
      orders := orders - {id};
      done := done + {id};
    }

    /** What a triggered stop is linked to is pulled. */
    method CloseLinked(id: nat)
      requires CanTrigger(S(), id) && (orders[id].cond.Oco? || orders[id].cond.Exit? ==> orders[id].cond.partner != id)
      requires orders[id].cond.Exit? ==> orders[id].cond.partner in exits
      modifies `orders, `exits
      ensures S() == Unlinked(old(S()), id)
    {
      var o := orders[id];
      if o.cond.Oco? || o.cond.Exit? {
        HandleOco(id);
      }
      if o.cond.Exit? {
        exits := exits[o.cond.partner := exits[o.cond.partner].(lost := exits[o.cond.partner].lost + o.sz)];
      }
    }

    /** An incoming order is matched as the engine has it. */
    method RouteOrder(sz: nat, call: Call, ghost w: nat, ghost left: nat) returns (filled: nat)
      requires Inv(S(), w, left)
      modifies `orders, `queue, `lastId, `exits, `fills, `touched, `done, `fired
      ensures (S(), filled) == Routed(old(S()), sz, call)
      ensures Inv(S(), w, left)
    {
      hide Inv, Hit, Triggered;
      ghost var s := S();
      ghost var h := RoutedHits(s, sz, call.hits);
      filled := 0;
      var i := 0;
      assert call.hits[0..] == call.hits;
      while i < |call.hits|
        invariant i <= |call.hits| && filled <= sz && Inv(S(), w, left)
        invariant RoutedHits(S(), sz - filled, call.hits[i..]).0 == h.0
        invariant filled + RoutedHits(S(), sz - filled, call.hits[i..]).1 == h.1
      {
        var id, amount := call.hits[i].0, call.hits[i].1;
        assert call.hits[i..][0] == call.hits[i] && call.hits[i..][1..] == call.hits[i + 1..];
        if id in orders && !orders[id].stop && 0 < amount <= orders[id].sz && amount <= sz - filled {
          HitOrder(id, amount, w, left);
          filled := filled + amount;
        }
        i := i + 1;
      }
      if filled > 0 {
        TriggerStops(call.triggers, w, left);
      }
    }

    method TriggerStops(ts: seq<(nat, bool)>, ghost w: nat, ghost left: nat)
      requires Inv(S(), w, left)
      modifies `orders, `queue, `lastId, `exits, `touched, `done, `fired
      ensures S() == RoutedTriggers(old(S()), ts)
      ensures Inv(S(), w, left)
    {
      hide Inv, Triggered;
      ghost var s := S();
      var i := 0;
      assert ts[0..] == ts;
      while i < |ts|
        invariant i <= |ts| && Inv(S(), w, left) && RoutedTriggers(S(), ts[i..]) == RoutedTriggers(s, ts)
      {
        assert ts[i..][0] == ts[i] && ts[i..][1..] == ts[i + 1..];
        var id := ts[i].0;
        if id in orders && orders[id].stop {
          TriggerStop(id, ts[i].1, w, left);
        }
        i := i + 1;
      }
    }

    /** A basic order is matched and rests; a market order throws if it is not filled. */
    method InjectOrder(id: nat, terms: Terms, call: Call) returns (filled: nat, thrown: bool)
      requires Inv(S(), 0, 0) && Fresh(S(), id) && terms.sz > 0
      modifies `orders, `queue, `lastId, `exits, `fills, `touched, `done, `fired
      ensures Injection(S(), filled, thrown) == Injected(old(S()), id, terms, call)
      ensures Inv(S(), 0, 0)
    {
      hide Inv, Taken, Fresh, After, Rest, Potential;
      InjectedOk(S(), id, terms, call);
      filled, thrown := 0, false;
      if terms.kind.Stop? {
        RestOrder(id, Order(true, terms.sz, Free));
      } else {
        filled := TakeOrder(id, terms.sz, call);
        thrown := filled < terms.sz && terms.kind.Market?;
        if filled < terms.sz && !thrown {
          RestOrder(id, Order(false, terms.sz - filled, Free));
        }
      }
    }

    method TakeOrder(id: nat, sz: nat, call: Call) returns (filled: nat)
      requires Inv(S(), 0, 0)
      modifies `orders, `queue, `lastId, `exits, `fills, `touched, `done, `fired
      ensures (S(), filled) == Taken(old(S()), id, sz, call)
    {
      hide Inv, Routed, Touch;
      filled := RouteOrder(sz, call, 0, 0);
      if filled > 0 {
        TouchTaker(id);
        done := if filled == sz then done + {id} else done;
      }
    }

    method GenerateId() returns (id: nat)
      requires Inv(S(), 0, 0)
      modifies `lastId
      ensures S() == NewId(old(S())) && id == lastId && Inv(S(), 0, 0) && Fresh(S(), id)
    {
      NewIdOk(S(), 0, 0);
      hide Inv, Fresh;
      lastId := lastId + 1;
      id := lastId;
    }

    /** One cancels other. For partial fills it never throws, and both orders will have traded
        or been triggered if and only if the first is while the second enters. */
    method InsertOco(first: Terms, second: Terms, full: bool, c1: Call, c2: Call) returns (id: nat, thrown: bool)
      requires Inv(S(), 0, 0) && first.sz > 0 && second.sz > 0 && !first.kind.Market? && !second.kind.Market?
      modifies this
      ensures Entered(S(), id, thrown) == OcoEntered(old(S()), first, second, full, c1, c2)
      ensures Inv(S(), 0, 0) && (!full ==> !thrown)
      ensures spoilt == old(spoilt) + if !full && Spoils(old(S()), first, second, c1, c2) then {(old(lastId) + 1, id)}
        else {}
      ensures old(Legged(S())) ==> Legged(S())
      ensures old(Legged(S())) ==>
        var i := Injected(NewId(old(S())), old(lastId) + 1, first, c1);
        if Satisfied(i.s, old(lastId) + 1, full) then S() == i.s && id == old(lastId) + 1 && !thrown
        else Coupled(i.s, old(lastId) + 1, second, full, c2, Entered(S(), id, thrown))
    {
      hide Inv, Spoils, OcoEntered, Legged, Potential, Injected, Coupled, Satisfied;
      OcoEnteredOk(S(), first, second, full, c1, c2);
      if Legged(S()) {
        OcoLegged(S(), first, second, full, c1, c2);
        PairEnters(S(), first, second, full, c1, c2);
      }
      id, thrown := InsertFirst(first, second, full, c1, c2);
    }

    method InsertFirst(first: Terms, second: Terms, full: bool, c1: Call, c2: Call) returns (id: nat, thrown: bool)
      requires Inv(S(), 0, 0) && first.sz > 0 && second.sz > 0
      modifies this
      ensures Entered(S(), id, thrown) == OcoEntered(old(S()), first, second, full, c1, c2)
    {
      hide Inv, Injected, Fresh, SecondEntered;
      var filled;
      id := GenerateId();
      filled, thrown := InjectOrder(id, first, c1);
      if Immediate(filled, first.sz, full) {
        thrown := false;
      } else {
        id, thrown := InsertSecond(id, second, full, c2);
      }
    }

    method InsertSecond(id1: nat, second: Terms, full: bool, c: Call) returns (id: nat, thrown: bool)
      requires Inv(S(), 0, 0) && second.sz > 0
      modifies this
      ensures Entered(S(), id, thrown) == SecondEntered(old(S()), id1, second, full, c)
    {
      hide Inv, Injected, Fresh, OcoClosed, LinkedUp;
      var filled;
      var id2 := GenerateId();
      filled, thrown := InjectOrder(id2, second, c);
      if Immediate(filled, second.sz, full) {
        ExecOco(id1, id2, full);
        return id2, false;
      }
      id := id1;
      thrown := id1 !in orders || id2 !in orders;
      if !thrown {
        LinkOrders(id1, id2, full);
      }
    }

    /** One triggers other. */
    method InsertOto(leg: Terms, next: Terms, full: bool, c: Call) returns (id: nat, thrown: bool)
      requires Inv(S(), 0, 0) && leg.sz > 0 && next.sz > 0
      modifies this
      ensures Entered(S(), id, thrown) == OtoEntered(old(S()), leg, next, full, c)
      ensures Inv(S(), 0, 0) && (old(Legged(S())) ==> Legged(S()))
    {
      OtoEnteredOk(S(), leg, next, full, c);
      if Legged(S()) {
        OtoLegged(S(), leg, next, full, c);
      }
      hide Inv, Injected, Fresh, Legged;
      var filled;
      id := GenerateId();
      filled, thrown := InjectOrder(id, leg, c);
      if thrown {
        return;
      }
      ArmLeg(id, next, full, Immediate(filled, leg.sz, full) || id !in orders);
    }

    /** The contingent order is queued at once, or the leg keeps it. */
    method ArmLeg(id: nat, next: Terms, full: bool, met: bool)
      requires met || id in orders
      modifies `orders, `queue, `lastId, `legs, `fired
      ensures var s1 := old(S()).(legs := old(legs)[id := full]);
        S() == if met then Push(s1.(fired := s1.fired + [id]), next) else Conditioned(s1, id, next, full)
    {
      legs := legs[id := full];
      if met {
        fired := fired + [id];
        PushInternal(next);
      } else {
        orders := orders[id := orders[id].(cond := Oto(next, full))];
      }
    }

    /** A limit order with a bracket: its fills open pairs of exits. */
    method InsertBracket(sz: nat, c: Call) returns (id: nat)
      requires Inv(S(), 0, 0) && sz > 0
      modifies this
      ensures Entered(S(), id, false) == EntryEntered(old(S()), sz, c)
      ensures Inv(S(), 0, 0) && (old(Legged(S())) ==> Legged(S()))
    {
      EntryEnteredOk(S(), sz, c);
      if Legged(S()) {
        EntryLegged(S(), sz, c);
      }
      hide Inv, Fresh, EntryRouted, Legged;
      id := GenerateId();
      EnterEntry(id, sz, c);
    }

    method EnterEntry(id: nat, sz: nat, c: Call)
      requires Inv(S(), 0, 0)
      modifies this
      ensures S() == EntryRouted(old(S()), id, sz, c)
    {
      hide Inv, Routed, EntryOpened, EntryRests;
      var filled := RouteOrder(sz, c, 0, 0);
      OpenEntry(id, filled);
      if filled < sz {
        RestEntry(id, sz - filled);
      }
    }

    /** The target order of a pair enters; what is left of it rests, linked with a loss order. */
    method InsertActiveBracket(t: nat, e: nat, sz: nat, c: Call)
      requires Inv(S(), t, sz) && sz > 0 && 0 < t <= lastId && t in exits && exits[t].entry == e && NotQueued(S(), t)
        && Unpaired(S(), t) && t !in fills
      modifies this
      ensures S() == ExitsEntered(old(S()), t, e, sz, c)
      ensures Inv(S(), 0, 0)
    {
      ExitsEnteredOk(S(), t, e, sz, c);
      hide Inv, NotQueued, Unpaired, ExitsEntered;
      InsertTarget(t, e, sz, c);
    }

    method InsertTarget(t: nat, e: nat, sz: nat, c: Call)
      requires Inv(S(), t, sz)
      modifies this
      ensures S() == ExitsEntered(old(S()), t, e, sz, c)
    {
      hide Inv, Routed, TargetTaken, PairRests;
      var filled := RouteOrder(sz, c, t, sz);
      TakeTarget(t, filled);
      if filled < sz {
        RestPair(t, e, sz - filled);
      }
    }

    /** A pull takes the linked order along. */
    method PullOrder(id: nat) returns (found: bool)
      requires Inv(S(), 0, 0)
      modifies `orders, `exits
      ensures found <==> id in old(orders)
      ensures S() == if found then Withdrawn(old(S()), id) else old(S())
      ensures Inv(S(), 0, 0) && id !in orders && (old(Legged(S())) ==> Legged(S()))
    {
      found := id in orders;
      if found {
        WithdrawnOk(S(), id);
        PullFacts(S(), id);
        if Legged(S()) {
          WithdrawnLegged(S(), id);
        }
        hide Inv, Withdrawn, Legged;
        Pull(id);
      }
    }

    method Pull(id: nat)
      requires id in orders && (orders[id].cond.Exit? ==> TargetOf(orders, id) in exits)
      modifies `orders, `exits
      ensures S() == Withdrawn(old(S()), id)
    {
      var o := orders[id];
      if o.cond.Exit? {
        ghost var t := TargetOf(orders, id);
        exits := exits[t := exits[t].(cancelled := exits[t].cancelled + o.sz)];
      }
      orders := if o.cond.Oco? || o.cond.Exit? then orders - {id, o.cond.partner} else orders - {id};
    }

    /** The internal orders of a window, until the queue is empty or one throws: whatever the
        engine does, each of them uses up some of what there was to come, and what they leave is a
        function of what there was and of what the engine answers, from its answer k on. */
    method RunQueue(engine: nat -> Call, k: nat) returns (thrown: bool)
      requires Inv(S(), 0, 0) && Legged(S())
      modifies this
      ensures Idle() && Turn(S(), thrown) == Drained(old(S()), engine, k, Potential(old(S())))
    {
      hide Inv, Potential, Turned, Legged, Kept;
      thrown := false;
      var turn := k;
      ghost var s0 := S();
      while queue != []
        invariant Inv(S(), 0, 0) && Legged(S()) && turn >= k
        invariant Drained(S(), engine, turn, Potential(S())) == Drained(s0, engine, k, Potential(s0))
        decreases Potential(S())
      {
        ghost var s := S();
        TurnedOk(s, engine(turn));
        Unwound(s, engine, turn);
        thrown := TakeTurn(engine(turn));
        if thrown {
          ClearQueue();
          return;
        }
        turn := turn + 1;
      }
    }

    /** The oldest queued order enters. */
    method TakeTurn(call: Call) returns (thrown: bool)
      requires Inv(S(), 0, 0) && Legged(S()) && queue != []
      modifies this
      ensures Turn(S(), thrown) == Turned(old(S()), call)
    {
      hide Inv, Potential, Injected, ExitsEntered, Fresh, Unpaired, NotQueued, Legged;
      PoppedOk(S());
      var t := queue[0];
      queue := queue[1..];
      thrown := false;
      match t {
        case Basic(id, terms) =>
          var filled;
          filled, thrown := InjectOrder(id, terms, call);
        case Exits(id, entry, sz) => InsertActiveBracket(id, entry, sz, call);
      }
    }

    method ClearQueue()
      requires Inv(S(), 0, 0) && Legged(S())
      modifies `queue, `exits
      ensures Idle() && S() == Cleared(old(S()))
    {
      hide Inv, Legged;
      ghost var s := S();
      while queue != []
        invariant Inv(S(), 0, 0) && Legged(S()) && Cleared(S()) == Cleared(s)
        decreases |queue|
      {
        DroppedOk(S());
        DroppedLegged(S());
        ghost var t := queue[0];
        if t.Exits? && t.id in exits {
          exits := exits[t.id := exits[t.id].(cancelled := exits[t.id].cancelled + t.sz)];
        }
        queue := queue[1..];
      }
    }
  }

  /** One turn of the queue, and what is left to do after it. */
  lemma Unwound(s: State, engine: nat -> Call, k: nat)
    requires Inv(s, 0, 0) && Legged(s) && s.queue != []
    ensures var r := Turned(s, engine(k));
      Drained(s, engine, k, Potential(s)) ==
        if r.thrown then Turn(Cleared(r.s), true) else Drained(r.s, engine, k + 1, Potential(r.s))
  {
    hide Inv, Legged, Turned, Kept, Potential;
    TurnedOk(s, engine(k));
    var r := Turned(s, engine(k));
    if !r.thrown {
      DrainedSame(r.s, engine, k + 1, Potential(s) - 1, Potential(r.s));
    }
  }

  lemma LinkFacts(s: State, id: nat, w: nat, left: nat)
    requires Inv(s, w, left) && id in s.orders
    ensures s.orders[id].cond.Oco? || s.orders[id].cond.Exit? ==> s.orders[id].cond.partner != id
    ensures s.orders[id].cond.Exit? ==>
      && s.orders[id].cond.partner in s.orders && s.orders[s.orders[id].cond.partner].sz == s.orders[id].sz
    ensures s.orders[id].cond.Entry? && s.orders[id].cond.target != 0 ==> s.orders[id].cond.target in s.exits
  {
    hide Exclusive, Booked, Positioned, Numbered;
  }

  /** What the links of an order lead to is there, and is another order. */
  ghost predicate WellLinked(s: State, id: nat)
    requires id in s.orders
  {
    var c := s.orders[id].cond;
    && (c.Oco? || c.Exit? ==> c.partner != id)
    && (c.Exit? ==> c.partner in s.orders && s.orders[c.partner].sz == s.orders[id].sz)
    && (c.Entry? && c.target != 0 ==> c.target in s.exits)
    && (c.Entry? && c.target != 0 && c.loss in s.orders && c.target in s.orders ==> c.loss != id && c.target != id)
  }

  lemma WellOrdered(s: State, id: nat, amount: nat, w: nat, left: nat)
    requires Inv(s, w, left) && CanHit(s, id, amount)
    ensures WellLinked(s, id)
  {
    hide Inv;
    LinkFacts(s, id, w, left);
    if s.orders[id].cond.Entry? {
      EntryFacts(s, id, w, left);
    }
  }

  /** The order hit is still in the book when its condition has been handled. */
  lemma StillThere(s: State, id: nat, amount: nat)
    requires CanHit(s, id, amount) && WellLinked(s, id)
    ensures var s0 := Traded(s, id, amount);
      && CanHit(s0, id, amount) && WellLinked(s0, id)
      && id in Handled(s0, id, amount).orders && amount <= Handled(s0, id, amount).orders[id].sz
  {
  }

  lemma TargetFacts(s: State, id: nat, w: nat, left: nat)
    requires Inv(s, w, left) && id in s.orders
    ensures s.orders[id].cond.Exit? && s.orders[id].stop ==> s.orders[id].cond.partner in s.exits
  {
    if s.orders[id].cond.Exit? {
      ExitFacts(s, id, w, left);
    }
  }

  lemma PullFacts(s: State, id: nat)
    requires Inv(s, 0, 0) && id in s.orders
    ensures s.orders[id].cond.Exit? ==> TargetOf(s.orders, id) in s.exits
  {
    if s.orders[id].cond.Exit? {
      ExitFacts(s, id, 0, 0);
    }
  }
}
