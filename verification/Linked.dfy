/** Orders with conditions: one-cancels-other, one-triggers-other and brackets. Which
    resting orders are hit, by how much, and which stops are triggered is up to the
    matching engine, whose answers are parameters here; prices are left out. */
module Linked {

  datatype Kind = Market | Limit | Stop
  datatype Terms = Terms(kind: Kind, sz: nat)

  /** full: the condition needs the whole order to be filled. An entry has the ids of its
      active loss and target orders, or 0. */
  datatype Condition =
    | Free
    | Oco(partner: nat, full: bool)
    | Oto(next: Terms, full: bool)
    | Entry(loss: nat, target: nat)
    | Exit(partner: nat)

  datatype Order = Order(stop: bool, sz: nat, cond: Condition)

  /** Exits: the target order of a bracket, which brings the loss order with it. */
  datatype Ticket =
    | Basic(id: nat, terms: Terms)
    | Exits(id: nat, entry: nat, sz: nat)

  /** The account of a pair of exits, under the id of the target: the position it was opened
      for, and what became of it. */
  datatype Pair = Pair(entry: nat, size: nat, filled: nat, lost: nat, cancelled: nat)

  /** What the engine does with an incoming order: the resting orders it hits and by how much,
      and the stops that triggers, with whether they become market orders. */
  datatype Call = Call(hits: seq<(nat, nat)>, triggers: seq<(nat, bool)>)

  /** touched: the orders that traded or were triggered; done: those filled to the last unit or
      triggered, the orders of brackets on their way in aside;
        pairs: the one-cancels-other pairs entered for partial fills; spoilt: those whose
      first order was touched while the second entered; legs: the one-triggers-other orders accepted,
      with whether they need a full fill; fired: those whose contingent order was queued, in order. */
  datatype State = State(orders: map<nat, Order>, queue: seq<Ticket>, lastId: nat, touched: set<nat>,
                         pairs: set<(nat, nat)>, spoilt: set<(nat, nat)>, exits: map<nat, Pair>, fills: map<nat, nat>,
                         done: set<nat>, legs: map<nat, bool>, fired: seq<nat>)

  /* ---- the invariant ---- */

  /** Links are symmetric; the exits of a pair have the same size, one being a stop. */
  ghost predicate Symmetric(orders: map<nat, Order>) {
    forall id :: id in orders ==>
      && orders[id].sz > 0
      && (orders[id].cond.Oco? ==>
           var p := orders[id].cond.partner;
           p != id && p in orders && orders[p].cond == Oco(id, orders[id].cond.full))
      && (orders[id].cond.Exit? ==>
           var p := orders[id].cond.partner;
           p != id && p in orders && orders[p].cond == Exit(id) && orders[p].sz == orders[id].sz
             && orders[p].stop != orders[id].stop)
      && (orders[id].cond.Oto? ==> orders[id].cond.next.sz > 0)
      && (orders[id].cond.Entry? ==> !orders[id].stop)
  }

  ghost predicate Numbered(s: State) {
    && 0 !in s.orders && 0 !in s.exits
    && (forall id :: id in s.orders || id in s.touched || id in s.exits || id in s.fills ==> id <= s.lastId)
    && (forall q :: q in s.pairs ==> q.0 <= s.lastId && q.1 <= s.lastId)
    && (forall i :: 0 <= i < |s.queue| ==> Awaiting(s, s.queue[i]))
    && (forall i, j :: 0 <= i < j < |s.queue| ==> s.queue[i].id != s.queue[j].id)
  }

  /** The id of a queued order is not used for anything yet. */
  ghost predicate Awaiting(s: State, t: Ticket) {
    && 0 < t.id <= s.lastId && t.id !in s.orders && t.id !in s.touched && t.id !in s.fills && Unpaired(s, t.id)
    && (if t.Basic? then t.terms.sz > 0 && t.id !in s.exits else t.sz > 0)
  }

  ghost predicate Unpaired(s: State, id: nat) {
    forall q :: q in s.pairs ==> q.0 != id && q.1 != id
  }

  /** At most one order of a pair is touched, unless the pair is spoilt. */
  ghost predicate Exclusive(orders: map<nat, Order>, touched: set<nat>, pairs: set<(nat, nat)>, spoilt: set<(nat, nat)>,
          lastId: nat) {
    spoilt <= pairs && forall q :: q in pairs ==>
      && q.0 != q.1 && q.0 <= lastId && q.1 <= lastId
      && (q in spoilt <==> q.0 in touched && q.1 in touched)
      && (q !in spoilt ==> Guarded(orders, touched, q.0, q.1) && Guarded(orders, touched, q.1, q.0))
  }

  /** An untouched order of a pair is linked to the other, or the other was touched and it is gone. */
  ghost predicate Guarded(orders: map<nat, Order>, touched: set<nat>, a: nat, b: nat) {
    a in orders && a !in touched ==> b !in touched && orders[a].cond == Oco(b, false)
  }

  /** The size the pair of target t still has to exit. */
  function OpenExit(s: State, t: nat): nat {
    (if t in s.orders && s.orders[t].cond.Exit? && !s.orders[t].stop then s.orders[t].sz else 0) + Waiting(s.queue, t)
  }

  function Waiting(queue: seq<Ticket>, t: nat): nat {
    if queue == [] then 0
    else (if queue[0].Exits? && queue[0].id == t then queue[0].sz else 0) + Waiting(queue[1..], t)
  }

  /** Every pair accounts for the position it was opened for. Target w is in work with left to trade. */
  ghost predicate Booked(s: State, w: nat, left: nat) {
    && (forall t :: t in s.exits ==>
         var x := s.exits[t];
         x.size == OpenExit(s, t) + (if t == w then left else 0) + x.filled + x.lost + x.cancelled)
    && (forall id :: id in s.orders && s.orders[id].cond.Exit? ==> TargetOf(s.orders, id) in s.exits)
    && (forall i :: 0 <= i < |s.queue| && s.queue[i].Exits? ==>
         s.queue[i].id in s.exits && s.exits[s.queue[i].id].entry == s.queue[i].entry)
    && (w != 0 ==> w in s.exits && w !in s.orders)
  }

  /** The target order of the pair that the exit id belongs to. */
  function TargetOf(orders: map<nat, Order>, id: nat): nat
    requires id in orders && orders[id].cond.Exit?
  {
    if orders[id].stop then orders[id].cond.partner else id
  }

  /** The active pair of an entry is a pair of that entry, and is linked while it rests. */
  ghost predicate Active(s: State) {
    && (forall t :: t in s.exits && s.exits[t].entry in s.orders ==> s.orders[s.exits[t].entry].cond.Entry?)
    && forall e :: e in s.orders && s.orders[e].cond.Entry? ==>
      var l, t := s.orders[e].cond.loss, s.orders[e].cond.target;
      && (t == 0 <==> l == 0)
      && (t != 0 ==>
           && t in s.exits && s.exits[t].entry == e && l <= s.lastId
           && (t in s.orders ==> s.orders[t].cond == Exit(l) && !s.orders[t].stop))
  }

  /** What the pairs of an entry were opened for, over the ids up to n. */
  function OpenedFor(exits: map<nat, Pair>, entry: nat, n: nat): nat {
    if n == 0 then 0
    else OpenedFor(exits, entry, n - 1) + if n in exits && exits[n].entry == entry then exits[n].size else 0
  }

  /** The fills of an entry are what its pairs were opened for. */
  ghost predicate Positioned(s: State) {
    && (forall e :: e in s.fills ==> e <= s.lastId && s.fills[e] == OpenedFor(s.exits, e, s.lastId))
    && (forall t :: t in s.exits ==> s.exits[t].entry in s.fills)
    && (forall e :: e in s.orders && s.orders[e].cond.Entry? ==> e in s.fills)
  }

  ghost predicate Inv(s: State, w: nat, left: nat) {
    && Symmetric(s.orders) && Numbered(s)
    && Exclusive(s.orders, s.touched, s.pairs, s.spoilt, s.lastId)
    && Booked(s, w, left) && Active(s) && Positioned(s)
  }

  /* ---- what is still to come of a window ---- */

  function TermsWeight(t: Terms): nat {
    if t.kind.Stop? then 3 else 1
  }

  function TicketWeight(t: Ticket): nat {
    match t
    case Basic(_, terms) => TermsWeight(terms)
    case Exits(_, _, _) => 3
  }

  function QueueWeight(queue: seq<Ticket>): nat {
    if queue == [] then 0 else TicketWeight(queue[0]) + QueueWeight(queue[1..])
  }

  function Weight(o: Order): nat {
    (if o.stop then 2 else 0) + match o.cond
      case Oto(next, _) => TermsWeight(next)
      case Entry(_, _) => 3 * o.sz
      case _ => 0
  }

  function OrdersWeight(orders: map<nat, Order>, n: nat): nat {
    if n == 0 then 0 else OrdersWeight(orders, n - 1) + if n in orders then Weight(orders[n]) else 0
  }

  /** Every queued order, resting stop, contingent order and unfilled entry may still give rise to orders. */
  function Potential(s: State): nat {
    QueueWeight(s.queue) + OrdersWeight(s.orders, s.lastId)
  }

  /* ---- the steps ---- */

  /** The order id is free, and the one it was linked to is pulled. */
  function Close(orders: map<nat, Order>, id: nat): map<nat, Order>
    requires id in orders && (orders[id].cond.Oco? || orders[id].cond.Exit?)
  {
    var o := orders[id];
    (orders - {o.cond.partner})[id := o.(cond := Free)]
  }

  /** id is touched. */
  function Touch(s: State, id: nat): State {
    s.(touched := s.touched + {id})
  }

  /** A new order is queued. */
  function Push(s: State, terms: Terms): State {
    s.(queue := s.queue + [Basic(s.lastId + 1, terms)], lastId := s.lastId + 1)
  }

  /** The contingent order of id is queued. */
  function Fire(s: State, id: nat): State
    requires id in s.orders && s.orders[id].cond.Oto?
  {
    Push(s.(orders := s.orders[id := s.orders[id].(cond := Free)], fired := s.fired + [id]), s.orders[id].cond.next)
  }

  /** An entry was filled by amount: its active pair grows by that, or a new pair is queued. */
  function Open(s: State, e: nat, amount: nat): State
    requires e in s.orders && s.orders[e].cond.Entry?
  {
    var l, t := s.orders[e].cond.loss, s.orders[e].cond.target;
    if t != 0 && l in s.orders && t in s.orders && t in s.exits then PairGrown(s, e, l, t, amount)
      else OpenNew(s, e, amount)
  }

  function PairGrown(s: State, e: nat, l: nat, t: nat, amount: nat): State
    requires l in s.orders && t in s.orders && t in s.exits
  {
    s.(orders := s.orders[l := Grown(s.orders[l], amount)][t := Grown(s.orders[t], amount)],
       exits := s.exits[t := s.exits[t].(size := s.exits[t].size + amount)])
  }

  /** A new pair of exits for e is queued. */
  function OpenNew(s: State, e: nat, amount: nat): State {
    var id := s.lastId + 1;
    s.(queue := s.queue + [Exits(id, e, amount)], lastId := id, exits := s.exits[id := Pair(e, amount, 0, 0, 0)])
  }

  /** An entry has traded amount. */
  function Filled(s: State, e: nat, amount: nat): State {
    s.(fills := Add(s.fills, e, amount))
  }

  function Grown(o: Order, amount: nat): Order {
    o.(sz := o.sz + amount)
  }

  function Shrunk(orders: map<nat, Order>, id: nat, amount: nat): map<nat, Order>
    requires id in orders && amount <= orders[id].sz
  {
    if amount == orders[id].sz then orders - {id} else orders[id := orders[id].(sz := orders[id].sz - amount)]
  }

  function Add(fills: map<nat, nat>, e: nat, amount: nat): map<nat, nat> {
    fills[e := (if e in fills then fills[e] else 0) + amount]
  }

  /** Some of target t was filled. */
  function ExitFilled(s: State, t: nat, amount: nat): State {
    if t in s.exits then s.(exits := s.exits[t := s.exits[t].(filled := s.exits[t].filled + amount)]) else s
  }

  /** An incoming order can trade amount with id. */
  predicate CanHit(s: State, id: nat, amount: nat) {
    id in s.orders && !s.orders[id].stop && 0 < amount <= s.orders[id].sz
  }

  /** What a fill of amount does to the condition of id. */
  function Handled(s: State, id: nat, amount: nat): State
    requires CanHit(s, id, amount)
  {
    var o := s.orders[id];
    match o.cond
    case Free => s
    case Oco(_, full) => if !full || amount == o.sz then s.(orders := Close(s.orders, id)) else s
    case Oto(_, full) => if !full || amount == o.sz then Fire(s, id) else s
    case Entry(_, _) => Open(s, id, amount)
    case Exit(p) =>
      ExitFilled(if amount == o.sz then s.(orders := Close(s.orders, id))
                 else if p in s.orders && amount <= s.orders[p].sz then s.(orders := Shrunk(s.orders, p, amount))
                   else s, id, amount)
  }

  /** A fill brings no order to rest, and whom it touches and finishes is not for a condition to say. */
  lemma HandledFrame(s: State, id: nat, amount: nat)
    requires CanHit(s, id, amount)
    ensures var s' := Handled(s, id, amount);
      && s'.legs == s.legs && s'.done == s.done && s'.touched == s.touched && s.lastId <= s'.lastId
      && s'.orders.Keys <= s.orders.Keys
  {
    if s.orders[id].cond.Exit? {
      ExitFrame(s, id, amount);
    } else if s.orders[id].cond.Entry? {
      EntryFrame(s, id, amount);
    } else {
      assert Handled(s, id, amount).orders.Keys <= s.orders.Keys;
    }
  }

  lemma ExitFrame(s: State, id: nat, amount: nat)
    requires CanHit(s, id, amount) && s.orders[id].cond.Exit?
    ensures var s' := Handled(s, id, amount);
      && s'.legs == s.legs && s'.done == s.done && s'.touched == s.touched && s.lastId == s'.lastId
      && s'.orders.Keys <= s.orders.Keys
  {
    hide Add;
  }

  lemma EntryFrame(s: State, id: nat, amount: nat)
    requires CanHit(s, id, amount) && s.orders[id].cond.Entry?
    ensures var s' := Handled(s, id, amount);
      && s'.legs == s.legs && s'.done == s.done && s'.touched == s.touched && s.lastId <= s'.lastId
      && s'.orders.Keys <= s.orders.Keys
  {
    hide Grown;
  }

  /** id is touched, and what an entry trades is noted. */
  function Traded(s: State, id: nat, amount: nat): State
    requires CanHit(s, id, amount)
  {
    if s.orders[id].cond.Entry? then Filled(Touch(s, id), id, amount) else Touch(s, id)
  }

  /** The resting order id trades amount with an incoming order; its condition is looked at first. */
  function Dealt(s: State, id: nat, amount: nat): State
    requires CanHit(s, id, amount)
  {
    var s1 := Handled(Traded(s, id, amount), id, amount);
    if id in s1.orders && amount <= s1.orders[id].sz then s1.(orders := Shrunk(s1.orders, id, amount)) else s1
  }

  /** The resting order id trades amount with an incoming order. */
  function Hit(s: State, id: nat, amount: nat): State
    requires CanHit(s, id, amount)
  {
    Finished(Dealt(s, id, amount), id, amount == s.orders[id].sz)
  }

  /** id was filled to the last unit, or triggered. */
  function Finished(s: State, id: nat, over: bool): State {
    if over then s.(done := s.done + {id}) else s
  }

  predicate CanTrigger(s: State, id: nat) {
    id in s.orders && s.orders[id].stop
  }

  /** What a triggered stop is linked to is pulled, and the size of a pair is lost. */
  function Unlinked(s: State, id: nat): State
    requires id in s.orders
  {
    var o := s.orders[id];
    var s1 := if o.cond.Oco? || o.cond.Exit? then s.(orders := Close(s.orders, id)) else s;
    if o.cond.Exit? && o.cond.partner in s.exits then
      s1.(exits := s1.exits[o.cond.partner := s1.exits[o.cond.partner].(lost := s1.exits[o.cond.partner].lost + o.sz)])
    else s1
  }

  /** The resting stop id becomes a queued order, and what waited for that follows. */
  function Sprung(s: State, id: nat, market: bool): State
    requires CanTrigger(s, id)
  {
    var o := s.orders[id];
    var s1 := Push(Unlinked(Touch(s, id), id), Terms(if market then Market else Limit, o.sz));
    var s2 := if o.cond.Oto? then Fire(s1, id) else s1;
    s2.(orders := s2.orders - {id})
  }

  /** The resting stop id is triggered. */
  function Triggered(s: State, id: nat, market: bool): State
    requires CanTrigger(s, id)
  {
    Finished(Sprung(s, id, market), id, true)
  }

  /* ---- every step keeps each part of the invariant ---- */

  /** History of what is done and fired makes no difference. */
  lemma NotedOk(s: State, done: set<nat>, legs: map<nat, bool>, fired: seq<nat>, w: nat, left: nat)
    requires Inv(s, w, left)
    ensures var s' := s.(done := done, legs := legs, fired := fired); Inv(s', w, left) && Potential(s') == Potential(s)
  {
    NotedBooked(s, done, legs, fired, w, left);
    NotedRest(s, done, legs, fired);
  }

  lemma NotedBooked(s: State, done: set<nat>, legs: map<nat, bool>, fired: seq<nat>, w: nat, left: nat)
    requires Booked(s, w, left)
    ensures Booked(s.(done := done, legs := legs, fired := fired), w, left)
  {
  }

  lemma NotedRest(s: State, done: set<nat>, legs: map<nat, bool>, fired: seq<nat>)
    requires Numbered(s) && Active(s) && Positioned(s)
    ensures var s' := s.(done := done, legs := legs, fired := fired); Numbered(s') && Active(s') && Positioned(s')
  {
  }

  lemma ShrunkSymmetric(orders: map<nat, Order>, id: nat, amount: nat)
    requires Symmetric(orders) && id in orders && 0 < amount <= orders[id].sz && !orders[id].cond.Exit?
    requires amount == orders[id].sz ==> !orders[id].cond.Oco?
    ensures Symmetric(Shrunk(orders, id, amount))
  {
  }

  lemma CloseSymmetric(orders: map<nat, Order>, id: nat)
    requires Symmetric(orders) && id in orders && (orders[id].cond.Oco? || orders[id].cond.Exit?)
    ensures Symmetric(Close(orders, id))
  {
  }

  lemma FreeSymmetric(orders: map<nat, Order>, id: nat)
    requires Symmetric(orders) && id in orders && orders[id].cond.Oto?
    ensures Symmetric(orders[id := orders[id].(cond := Free)])
  {
  }

  lemma ResizedSymmetric(orders: map<nat, Order>, id: nat, p: nat, sz: nat)
    requires Symmetric(orders) && id in orders && orders[id].cond == Exit(p) && sz > 0
    ensures p in orders && Symmetric(orders[p := orders[p].(sz := sz)][id := orders[id].(sz := sz)])
  {
  }

  lemma RemoveSymmetric(orders: map<nat, Order>, id: nat)
    requires Symmetric(orders) && id in orders && !orders[id].cond.Oco? && !orders[id].cond.Exit?
    ensures Symmetric(orders - {id})
  {
  }

  /** The orders after id was touched: none is new, only id lost a link, and its partner is gone. */
  ghost predicate Fewer(orders: map<nat, Order>, orders': map<nat, Order>, id: nat) {
    && (forall x :: x in orders' ==>
          x in orders && (x != id && orders[x].cond.Oco? ==> orders'[x].cond == orders[x].cond))
    && (id in orders && orders[id].cond.Oco? && !orders[id].cond.full ==> orders[id].cond.partner !in orders')
  }

  /** Touching an order keeps pairs exclusive. */
  lemma TouchExclusive(orders: map<nat, Order>, orders': map<nat, Order>, touched: set<nat>, pairs: set<(nat, nat)>,
          spoilt: set<(nat, nat)>,
                       lastId: nat, lastId': nat, id: nat)
    requires Exclusive(orders, touched, pairs, spoilt, lastId) && lastId <= lastId' && id in orders
      && Fewer(orders, orders', id)
    ensures Exclusive(orders', touched + {id}, pairs, spoilt, lastId')
  {
    forall q | q in pairs
      ensures q in spoilt <==> q.0 in touched + {id} && q.1 in touched + {id}
      ensures q !in spoilt ==> Guarded(orders', touched + {id}, q.0, q.1) && Guarded(orders', touched + {id}, q.1, q.0)
    {
      if q !in spoilt {
        GuardedTouch(orders, orders', touched, q.0, q.1, id);
        GuardedTouch(orders, orders', touched, q.1, q.0, id);
      }
    }
  }

  lemma GuardedTouch(orders: map<nat, Order>, orders': map<nat, Order>, touched: set<nat>, a: nat, b: nat, id: nat)
    requires Guarded(orders, touched, a, b) && Guarded(orders, touched, b, a) && !(a in touched && b in touched)
      && a != b
    requires id in orders && Fewer(orders, orders', id)
    ensures Guarded(orders', touched + {id}, a, b) && !(a in touched + {id} && b in touched + {id})
  {
  }

  lemma TouchNumbered(s: State, orders': map<nat, Order>, id: nat)
    requires Numbered(s) && orders'.Keys <= s.orders.Keys && id in s.orders
    ensures Numbered(s.(orders := orders', touched := s.touched + {id}))
  {
  }

  lemma PushNumbered(s: State, t: Ticket)
    requires Numbered(s) && t.id == s.lastId + 1 && (if t.Basic? then t.terms.sz > 0 else t.sz > 0)
    ensures Numbered(s.(queue := s.queue + [t], lastId := s.lastId + 1))
  {
    var q := s.queue + [t];
    assert forall i :: 0 <= i < |s.queue| ==> q[i] == s.queue[i];
  }

  lemma {:induction false} WaitingConcat(a: seq<Ticket>, b: seq<Ticket>, t: nat)
    ensures Waiting(a + b, t) == Waiting(a, t) + Waiting(b, t)
  {
    if a == [] {
      assert a + b == b;
    } else {
      assert (a + b)[1..] == a[1..] + b;
      WaitingConcat(a[1..], b, t);
    }
  }

  lemma WaitingOne(queue: seq<Ticket>, x: Ticket, t: nat)
    ensures Waiting(queue + [x], t) == Waiting(queue, t) + if x.Exits? && x.id == t then x.sz else 0
  {
    WaitingConcat(queue, [x], t);
    assert Waiting([x][1..], t) == 0;
  }

  /** The exits among the orders are the same. */
  ghost predicate SameExits(orders: map<nat, Order>, orders': map<nat, Order>) {
    && (forall x :: x in orders && orders[x].cond.Exit? ==> x in orders' && orders'[x] == orders[x])
    && (forall x :: x in orders' && orders'[x].cond.Exit? ==> x in orders && orders[x].cond.Exit?)
  }

  lemma SameBooked(s: State, orders': map<nat, Order>, touched': set<nat>, w: nat, left: nat)
    requires Booked(s, w, left) && SameExits(s.orders, orders') && orders'.Keys <= s.orders.Keys
    ensures Booked(s.(orders := orders', touched := touched'), w, left)
  {
  }

  lemma PushBooked(s: State, t: Ticket, w: nat, left: nat)
    requires Booked(s, w, left) && t.Basic?
    ensures Booked(s.(queue := s.queue + [t], lastId := s.lastId + 1), w, left)
  {
    forall x ensures Waiting(s.queue + [t], x) == Waiting(s.queue, x) {
      WaitingOne(s.queue, t, x);
    }
  }

  lemma {:induction false} WeightSet(orders: map<nat, Order>, n: nat, id: nat, o: Order)
    ensures OrdersWeight(orders[id := o], n) == OrdersWeight(orders, n)
      + if 0 < id <= n then Weight(o) - (if id in orders then Weight(orders[id]) else 0) else 0
  {
    if n > 0 {
      WeightSet(orders, n - 1, id, o);
    }
  }

  lemma {:induction false} WeightRemove(orders: map<nat, Order>, n: nat, id: nat)
    ensures OrdersWeight(orders - {id}, n) == OrdersWeight(orders, n) - if 0 < id <= n
      && id in orders then Weight(orders[id]) else 0
  {
    if n > 0 {
      WeightRemove(orders, n - 1, id);
    }
  }

  lemma {:induction false} WeightMore(orders: map<nat, Order>, n: nat, m: nat)
    requires n <= m && forall id :: id in orders ==> id <= n
    ensures OrdersWeight(orders, m) == OrdersWeight(orders, n)
  {
    if n < m {
      WeightMore(orders, n, m - 1);
    }
  }

  lemma {:induction false} QueueWeightConcat(a: seq<Ticket>, b: seq<Ticket>)
    ensures QueueWeight(a + b) == QueueWeight(a) + QueueWeight(b)
  {
    if a == [] {
      assert a + b == b;
    } else {
      assert (a + b)[1..] == a[1..] + b;
      QueueWeightConcat(a[1..], b);
    }
  }

  lemma QueueWeightOne(queue: seq<Ticket>, t: Ticket)
    ensures QueueWeight(queue + [t]) == QueueWeight(queue) + TicketWeight(t)
  {
    QueueWeightConcat(queue, [t]);
    assert QueueWeight([t][1..]) == 0;
  }

  /** A new order in the queue adds its weight. */
  lemma PushPotential(s: State, t: Ticket)
    requires Numbered(s)
    ensures Potential(s.(queue := s.queue + [t], lastId := s.lastId + 1)) == Potential(s) + TicketWeight(t)
  {
    QueueWeightOne(s.queue, t);
    WeightMore(s.orders, s.lastId, s.lastId + 1);
  }

  lemma SetPotential(s: State, id: nat, o: Order)
    requires Numbered(s) && id in s.orders
    ensures Potential(s.(orders := s.orders[id := o])) == Potential(s) + Weight(o) - Weight(s.orders[id])
  {
    WeightSet(s.orders, s.lastId, id, o);
  }

  lemma RemovePotential(s: State, id: nat)
    requires Numbered(s) && id in s.orders
    ensures Potential(s.(orders := s.orders - {id})) == Potential(s) - Weight(s.orders[id])
  {
    WeightRemove(s.orders, s.lastId, id);
  }

  lemma ShrunkPotential(s: State, id: nat, amount: nat)
    requires Numbered(s) && id in s.orders && amount <= s.orders[id].sz
    ensures Potential(s.(orders := Shrunk(s.orders, id,
      amount))) <= Potential(s) - if s.orders[id].cond.Entry? then 3 * amount else 0
  {
    var o := s.orders[id];
    if amount == o.sz {
      RemovePotential(s, id);
    } else {
      SetPotential(s, id, o.(sz := o.sz - amount));
    }
  }

  /** Entries stay entries with their active pairs, and exits keep their links. */
  ghost predicate SameRoles(orders: map<nat, Order>, orders': map<nat, Order>) {
    forall x :: x in orders' ==>
      && x in orders && (orders[x].cond.Entry? <==> orders'[x].cond.Entry?)
      && (orders[x].cond.Entry? || orders[x].cond.Exit? ==>
        orders'[x].cond == orders[x].cond && orders'[x].stop == orders[x].stop)
  }

  lemma SameActive(s: State, s': State)
    requires Active(s) && SameRoles(s.orders, s'.orders) && s.lastId <= s'.lastId
    requires s'.exits.Keys == s.exits.Keys && forall t :: t in s.exits ==> s'.exits[t].entry == s.exits[t].entry
    ensures Active(s')
  {
  }

  lemma {:induction false} OpenedSame(exits: map<nat, Pair>, exits': map<nat, Pair>, e: nat, n: nat)
    requires exits'.Keys == exits.Keys
    requires forall t :: t in exits ==> exits'[t].entry == exits[t].entry && exits'[t].size == exits[t].size
    ensures OpenedFor(exits', e, n) == OpenedFor(exits, e, n)
  {
    if n > 0 {
      OpenedSame(exits, exits', e, n - 1);
    }
  }

  lemma {:induction false} OpenedMore(exits: map<nat, Pair>, e: nat, n: nat, m: nat)
    requires n <= m && forall t :: t in exits ==> t <= n
    ensures OpenedFor(exits, e, m) == OpenedFor(exits, e, n)
  {
    if n < m {
      OpenedMore(exits, e, n, m - 1);
    }
  }

  lemma SamePositioned(s: State, s': State)
    requires Positioned(s) && s'.fills == s.fills && s.lastId <= s'.lastId && forall t :: t in s.exits ==> t <= s.lastId
    requires s'.exits.Keys == s.exits.Keys
    requires forall t :: t in s.exits ==> s'.exits[t].entry == s.exits[t].entry && s'.exits[t].size == s.exits[t].size
    requires forall x :: x in s'.orders && s'.orders[x].cond.Entry? ==> x in s.orders && s.orders[x].cond.Entry?
    ensures Positioned(s')
  {
    forall e | e in s'.fills ensures s'.fills[e] == OpenedFor(s'.exits, e, s'.lastId) {
      OpenedSame(s.exits, s'.exits, e, s.lastId);
      OpenedMore(s'.exits, e, s.lastId, s'.lastId);
    }
  }

  /** The orders change without exits or entries being affected, and id is touched. */
  lemma ChangeOk(s: State, orders': map<nat, Order>, id: nat, w: nat, left: nat)
    requires Inv(s, w, left) && id in s.orders && orders'.Keys <= s.orders.Keys && Symmetric(orders')
    requires Fewer(s.orders, orders', id) && SameExits(s.orders, orders') && SameRoles(s.orders, orders')
    ensures Inv(s.(orders := orders', touched := s.touched + {id}), w, left)
  {
    hide Symmetric, Exclusive, Booked, Active, Positioned, Fewer, SameExits, SameRoles;
    var s' := s.(orders := orders', touched := s.touched + {id});
    TouchExclusive(s.orders, orders', s.touched, s.pairs, s.spoilt, s.lastId, s.lastId, id);
    SameBooked(s, orders', s'.touched, w, left);
    SameActive(s, s');
    TouchNumbered(s, orders', id);
    hide Numbered;
    assert s'.exits.Keys == s.exits.Keys;
    Entries(s.orders, orders');
    ExitIds(s);
    SamePositioned(s, s');
  }

  lemma Entries(orders: map<nat, Order>, orders': map<nat, Order>)
    requires SameRoles(orders, orders')
    ensures forall x :: x in orders' && orders'[x].cond.Entry? ==> x in orders && orders[x].cond.Entry?
  {
  }

  lemma ExitIds(s: State)
    requires Numbered(s)
    ensures forall t :: t in s.exits ==> 0 < t <= s.lastId
  {
  }

  lemma MoreExclusive(orders: map<nat, Order>, touched: set<nat>, pairs: set<(nat, nat)>, spoilt: set<(nat, nat)>,
          n: nat, m: nat)
    requires Exclusive(orders, touched, pairs, spoilt, n) && n <= m
    ensures Exclusive(orders, touched, pairs, spoilt, m)
  {
  }

  /** A new basic order is queued. */
  lemma PushOk(s: State, terms: Terms, w: nat, left: nat)
    requires Inv(s, w, left) && terms.sz > 0
    ensures Inv(Push(s, terms), w, left) && Potential(Push(s, terms)) == Potential(s) + TermsWeight(terms)
  {
    var t := Basic(s.lastId + 1, terms);
    PushNumbered(s, t);
    PushBooked(s, t, w, left);
    PushPotential(s, t);
    ExitIds(s);
    MoreExclusive(s.orders, s.touched, s.pairs, s.spoilt, s.lastId, s.lastId + 1);
    hide Symmetric, Exclusive, Booked, Active, Positioned, Numbered;
    SameActive1(s);
    SameActive(s, Push(s, terms));
    SamePositioned(s, Push(s, terms));
  }

  lemma SameActive1(s: State)
    ensures SameRoles(s.orders, s.orders)
  {
  }

  /* ---- a resting order is hit ---- */

  /** The parts of a hit that concern one order and its link. */
  lemma HitPlain(s: State, id: nat, amount: nat, w: nat, left: nat)
    requires Inv(s, w, left) && CanHit(s, id, amount) && !s.orders[id].cond.Exit?
    requires s.orders[id].cond.Oco? ==> s.orders[id].cond.full && amount < s.orders[id].sz
    ensures var s' := s.(orders := Shrunk(s.orders, id, amount), touched := s.touched + {id});
      Inv(s', w, left) && Potential(s') <= Potential(s) - if s.orders[id].cond.Entry? then 3 * amount else 0
  {
    ShrunkSymmetric(s.orders, id, amount);
    ShrunkPotential(s, id, amount);
    ShrunkSame(s.orders, id, amount);
    hide Symmetric, Exclusive, Booked, Active, Positioned, Numbered, Shrunk;
    ChangeOk(s, Shrunk(s.orders, id, amount), id, w, left);
  }

  lemma ShrunkSame(orders: map<nat, Order>, id: nat, amount: nat)
    requires id in orders && amount <= orders[id].sz && !orders[id].cond.Exit?
    requires orders[id].cond.Oco? ==> orders[id].cond.full
    ensures var orders' := Shrunk(orders, id, amount);
      Fewer(orders, orders', id) && SameExits(orders, orders') && SameRoles(orders,
        orders') && orders'.Keys <= orders.Keys
  {
  }

  lemma HitOco(s: State, id: nat, amount: nat, w: nat, left: nat)
    requires Inv(s, w, left) && CanHit(s, id, amount) && s.orders[id].cond.Oco?
    ensures var s' := s.(orders := Shrunk(Close(s.orders, id), id, amount), touched := s.touched + {id});
      Inv(s', w, left) && Potential(s') <= Potential(s)
  {
    var orders1 := Close(s.orders, id);
    CloseSymmetric(s.orders, id);
    ShrunkSymmetric(orders1, id, amount);
    ClosePotential(s, id);
    ShrunkPotential(s.(orders := orders1), id, amount);
    CloseSame(s.orders, id, amount);
    hide Symmetric, Exclusive, Booked, Active, Positioned, Numbered, Shrunk, Close;
    ChangeOk(s, Shrunk(orders1, id, amount), id, w, left);
  }

  lemma CloseSame(orders: map<nat, Order>, id: nat, amount: nat)
    requires Symmetric(orders) && id in orders && amount <= orders[id].sz && orders[id].cond.Oco?
    ensures var orders' := Shrunk(Close(orders, id), id, amount);
      Fewer(orders, orders', id) && SameExits(orders, orders') && SameRoles(orders,
        orders') && orders'.Keys <= orders.Keys
  {
  }

  lemma ClosePotential(s: State, id: nat)
    requires Symmetric(s.orders) && Numbered(s) && id in s.orders && (s.orders[id].cond.Oco? || s.orders[id].cond.Exit?)
    ensures var s' := s.(orders := Close(s.orders, id)); Potential(s') <= Potential(s) && Numbered(s')
  {
    var p := s.orders[id].cond.partner;
    var s1 := s.(orders := s.orders - {p});
    assert p in s.orders && p != id;
    FewerNumbered(s, s1.orders);
    FewerNumbered(s, Close(s.orders, id));
    hide Symmetric, Numbered, Potential;
    RemovePotential(s, p);
    SetPotential(s1, id, s.orders[id].(cond := Free));
  }

  lemma FewerNumbered(s: State, orders: map<nat, Order>)
    requires Numbered(s) && orders.Keys <= s.orders.Keys
    ensures Numbered(s.(orders := orders))
  {
  }

  /** An order whose contingent order is fired is free, and filled. */
  lemma FreedOk(s: State, id: nat, amount: nat, w: nat, left: nat)
    requires Inv(s, w, left) && CanHit(s, id, amount) && s.orders[id].cond.Oto?
    ensures var orders' := s.orders[id := s.orders[id].(cond := Free)];
      var s' := s.(orders := Shrunk(orders', id, amount), touched := s.touched + {id});
      Inv(s', w, left) && Potential(s') + TermsWeight(s.orders[id].cond.next) <= Potential(s)
  {
    var orders' := s.orders[id := s.orders[id].(cond := Free)];
    FreedParts(s, id, amount);
    FreeSame(s.orders, id, amount);
    hide Symmetric, Exclusive, Booked, Active, Positioned, Numbered, Shrunk;
    ChangeOk(s, Shrunk(orders', id, amount), id, w, left);
  }

  lemma FreedParts(s: State, id: nat, amount: nat)
    requires Symmetric(s.orders) && Numbered(s) && CanHit(s, id, amount) && s.orders[id].cond.Oto?
    ensures var orders' := s.orders[id := s.orders[id].(cond := Free)];
      && Symmetric(Shrunk(orders', id, amount))
      && Potential(s.(orders := Shrunk(orders', id, amount))) + TermsWeight(s.orders[id].cond.next) <= Potential(s)
  {
    var o := s.orders[id];
    var orders' := s.orders[id := o.(cond := Free)];
    FreeSymmetric(s.orders, id);
    ShrunkSymmetric(orders', id, amount);
    SetPotential(s, id, o.(cond := Free));
    assert Numbered(s.(orders := orders'));
    hide Symmetric, Numbered;
    ShrunkPotential(s.(orders := orders'), id, amount);
  }

  lemma HitOto(s: State, id: nat, amount: nat, w: nat, left: nat)
    requires Inv(s, w, left) && CanHit(s, id, amount) && s.orders[id].cond.Oto?
    ensures var orders' := s.orders[id := s.orders[id].(cond := Free)];
      var s' := Push(s.(orders := Shrunk(orders', id, amount), touched := s.touched + {id}, fired := s.fired + [id]),
        s.orders[id].cond.next);
      Inv(s', w, left) && Potential(s') <= Potential(s)
  {
    var orders' := s.orders[id := s.orders[id].(cond := Free)];
    assert s.orders[id].cond.next.sz > 0;
    hide Inv, Potential, Shrunk;
    FreedOk(s, id, amount, w, left);
    var s1 := s.(orders := Shrunk(orders', id, amount), touched := s.touched + {id});
    NotedOk(s1, s.done, s.legs, s.fired + [id], w, left);
    PushOk(s1.(fired := s.fired + [id]), s.orders[id].cond.next, w, left);
  }

  lemma FreeSame(orders: map<nat, Order>, id: nat, amount: nat)
    requires id in orders && amount <= orders[id].sz && orders[id].cond.Oto?
    ensures var orders' := Shrunk(orders[id := orders[id].(cond := Free)], id, amount);
      Fewer(orders, orders', id) && SameExits(orders, orders') && SameRoles(orders,
        orders') && orders'.Keys <= orders.Keys
  {
  }

  /* ---- pairs of exits ---- */

  lemma {:induction false} OpenedSet(exits: map<nat, Pair>, t: nat, x: Pair, e: nat, n: nat)
    requires t !in exits || exits[t].entry == x.entry
    ensures OpenedFor(exits[t := x], e, n) == OpenedFor(exits, e, n)
      + if 0 < t <= n && x.entry == e then x.size - (if t in exits then exits[t].size else 0) else 0
  {
    if n > 0 {
      OpenedSet(exits, t, x, e, n - 1);
    }
  }

  lemma {:induction false} OpenedNone(exits: map<nat, Pair>, e: nat, n: nat)
    requires forall t :: t in exits ==> exits[t].entry != e
    ensures OpenedFor(exits, e, n) == 0
  {
    if n > 0 {
      OpenedNone(exits, e, n - 1);
    }
  }

  lemma {:induction false} WaitingNone(queue: seq<Ticket>, t: nat)
    requires forall i :: 0 <= i < |queue| ==> queue[i].id != t
    ensures Waiting(queue, t) == 0
  {
    if queue != [] {
      assert forall i :: 0 <= i < |queue[1..]| ==> queue[1..][i] == queue[i + 1];
      WaitingNone(queue[1..], t);
    }
  }

  /** Sizes do not matter to exclusivity. */
  lemma SizeExclusive(orders: map<nat, Order>, orders': map<nat, Order>, touched: set<nat>, pairs: set<(nat, nat)>,
          spoilt: set<(nat, nat)>, n: nat)
    requires Exclusive(orders, touched, pairs, spoilt, n)
    requires forall x :: x in orders' ==> x in orders && orders'[x].cond == orders[x].cond
    ensures Exclusive(orders', touched, pairs, spoilt, n)
  {
  }

  /** l and t are the loss and the target order of a pair. */
  ghost predicate Paired(orders: map<nat, Order>, l: nat, t: nat) {
    l in orders && t in orders && orders[t].cond == Exit(l) && !orders[t].stop
  }

  lemma PairedFacts(s: State, l: nat, t: nat, w: nat, left: nat)
    requires Inv(s, w, left) && Paired(s.orders, l, t)
    ensures l != t && t in s.exits && s.orders[l].cond == Exit(t) && s.orders[l].stop
    ensures s.orders[l].sz == s.orders[t].sz && t != w && 0 < t <= s.lastId && 0 < l <= s.lastId
  {
    hide Exclusive, Active, Positioned;
    assert TargetOf(s.orders, t) == t;
  }

  lemma GrownBooked(s: State, e: nat, l: nat, t: nat, amount: nat, w: nat, left: nat)
    requires Inv(s, w, left) && Paired(s.orders, l, t)
    ensures t in s.exits && Booked(Filled(PairGrown(s, e, l, t, amount), e, amount), w, left)
  {
    PairedFacts(s, l, t, w, left);
    assert Booked(s, w, left);
    hide Inv;
    PairBooked(s, e, l, t, amount, w, left);
  }

  lemma PairBooked(s: State, e: nat, l: nat, t: nat, amount: nat, w: nat, left: nat)
    requires Booked(s, w, left) && Paired(s.orders, l, t)
    requires l != t && t in s.exits && s.orders[l].cond == Exit(t) && s.orders[l].stop && t != w
    ensures Booked(Filled(PairGrown(s, e, l, t, amount), e, amount), w, left)
  {
  }

  lemma GrownPotential(s: State, e: nat, l: nat, t: nat, amount: nat)
    requires Numbered(s) && Paired(s.orders, l, t) && t in s.exits && s.orders[l].cond == Exit(t) && l != t
    ensures Potential(Filled(PairGrown(s, e, l, t, amount), e, amount)) == Potential(s)
  {
    var s1 := s.(orders := s.orders[l := Grown(s.orders[l], amount)]);
    SetPotential(s, l, Grown(s.orders[l], amount));
    SetPotential(s1, t, Grown(s.orders[t], amount));
    assert Filled(PairGrown(s, e, l, t, amount), e, amount).orders == s1.orders[t := Grown(s.orders[t], amount)];
  }

  lemma GrownNumbered(s: State, e: nat, l: nat, t: nat, amount: nat)
    requires Numbered(s) && Paired(s.orders, l, t) && t in s.exits && e in s.fills
    ensures Numbered(Filled(PairGrown(s, e, l, t, amount), e, amount))
  {
  }

  lemma GrownPositioned(s: State, e: nat, l: nat, t: nat, amount: nat)
    requires Positioned(s) && Paired(s.orders, l, t) && t in s.exits && s.exits[t].entry == e && e in s.fills
      && 0 < t <= s.lastId
    ensures Positioned(Filled(PairGrown(s, e, l, t, amount), e, amount))
  {
    var s' := Filled(PairGrown(s, e, l, t, amount), e, amount);
    forall x | x in s'.fills ensures x <= s'.lastId && s'.fills[x] == OpenedFor(s'.exits, x, s'.lastId) {
      OpenedSet(s.exits, t, s'.exits[t], x, s.lastId);
    }
  }

  lemma GrownActive(s: State, e: nat, l: nat, t: nat, amount: nat)
    requires Active(s) && Paired(s.orders, l, t) && t in s.exits
    ensures Active(Filled(PairGrown(s, e, l, t, amount), e, amount))
  {
    hide Active;
    SameActive(s, Filled(PairGrown(s, e, l, t, amount), e, amount));
  }

  lemma GrownExclusive(s: State, e: nat, l: nat, t: nat, amount: nat)
    requires Exclusive(s.orders, s.touched, s.pairs, s.spoilt, s.lastId) && Paired(s.orders, l, t) && t in s.exits
    ensures Exclusive(Filled(PairGrown(s, e, l, t, amount), e, amount).orders, s.touched, s.pairs, s.spoilt, s.lastId)
  {
    hide Exclusive;
    SizeExclusive(s.orders, Filled(PairGrown(s, e, l, t, amount), e, amount).orders, s.touched, s.pairs, s.spoilt,
      s.lastId);
  }

  lemma GrownSymmetric(s: State, e: nat, l: nat, t: nat, amount: nat)
    requires Symmetric(s.orders) && Paired(s.orders, l, t) && t in s.exits
    ensures Symmetric(Filled(PairGrown(s, e, l, t, amount), e, amount).orders)
  {
    ResizedSymmetric(s.orders, t, l, s.orders[t].sz + amount);
  }

  /** The active pair of an entry grows with a fill of the entry. */
  lemma PairGrownOk(s: State, e: nat, l: nat, t: nat, amount: nat, w: nat, left: nat)
    requires Inv(s, w, left) && Paired(s.orders, l, t) && t in s.exits && s.exits[t].entry == e && e in s.fills
      && amount > 0
    ensures var s' := Filled(PairGrown(s, e, l, t, amount), e, amount);
      Inv(s', w, left) && Potential(s') == Potential(s)
  {
    hide Symmetric, Exclusive, Booked, Active, Numbered, Positioned;
    PairedFacts(s, l, t, w, left);
    GrownSymmetric(s, e, l, t, amount);
    GrownBooked(s, e, l, t, amount, w, left);
    GrownPotential(s, e, l, t, amount);
    GrownNumbered(s, e, l, t, amount);
    GrownPositioned(s, e, l, t, amount);
    GrownActive(s, e, l, t, amount);
    GrownExclusive(s, e, l, t, amount);
  }

  lemma NewBooked(s: State, e: nat, amount: nat, w: nat, left: nat)
    requires Booked(s, w, left) && Numbered(s)
    ensures Booked(Filled(OpenNew(s, e, amount), e, amount), w, left)
  {
    var s' := Filled(OpenNew(s, e, amount), e, amount);
    var id := s.lastId + 1;
    forall t ensures Waiting(s'.queue, t) == Waiting(s.queue, t) + if t == id then amount else 0 {
      WaitingOne(s.queue, Exits(id, e, amount), t);
    }
    WaitingNone(s.queue, id);
    forall i | 0 <= i < |s'.queue| && s'.queue[i].Exits?
      ensures s'.queue[i].id in s'.exits && s'.exits[s'.queue[i].id].entry == s'.queue[i].entry
    {
      if i < |s.queue| {
        assert s'.queue[i] == s.queue[i];
      }
    }
  }

  ghost predicate NotQueued(s: State, id: nat) {
    forall i :: 0 <= i < |s.queue| ==> s.queue[i].id != id
  }

  lemma NewNumbered(s: State, e: nat, amount: nat)
    requires Numbered(s) && amount > 0 && e <= s.lastId && NotQueued(s, e)
    ensures Numbered(Filled(OpenNew(s, e, amount), e, amount))
  {
    var s' := Filled(OpenNew(s, e, amount), e, amount);
    PushNumbered(s, Exits(s.lastId + 1, e, amount));
    assert forall i :: 0 <= i < |s.queue| ==> s'.queue[i] == s.queue[i];
  }

  lemma NewActive(s: State, e: nat, amount: nat)
    requires Active(s) && Numbered(s) && (e in s.orders ==> s.orders[e].cond.Entry?)
    ensures Active(Filled(OpenNew(s, e, amount), e, amount))
  {
  }

  lemma NewPositioned(s: State, e: nat, amount: nat)
    requires Positioned(s) && Numbered(s) && e <= s.lastId
    ensures Positioned(Filled(OpenNew(s, e, amount), e, amount))
  {
    var s' := Filled(OpenNew(s, e, amount), e, amount);
    var id := s.lastId + 1;
    hide Numbered;
    ExitIds(s);
    if e !in s.fills {
      OpenedNone(s.exits, e, s.lastId);
    }
    forall x | x in s'.fills ensures x <= s'.lastId && s'.fills[x] == OpenedFor(s'.exits, x, s'.lastId) {
      OpenedMore(s.exits, x, s.lastId, id);
      OpenedSet(s.exits, id, Pair(e, amount, 0, 0, 0), x, id);
    }
  }

  /** A new pair of exits is queued for a fill of an entry. */
  lemma OpenNewOk(s: State, e: nat, amount: nat, w: nat, left: nat)
    requires Inv(s, w, left) && e <= s.lastId && (e in s.orders ==> s.orders[e].cond.Entry?) && amount > 0
      && NotQueued(s, e)
    ensures var s' := Filled(OpenNew(s, e, amount), e, amount); Inv(s', w, left) && Potential(s') == Potential(s) + 3
  {
    NewBooked(s, e, amount, w, left);
    NewNumbered(s, e, amount);
    NewActive(s, e, amount);
    NewPositioned(s, e, amount);
    PushPotential(s, Exits(s.lastId + 1, e, amount));
    MoreExclusive(s.orders, s.touched, s.pairs, s.spoilt, s.lastId, s.lastId + 1);
  }

  /** Target t of a pair is filled in part, which shrinks the loss order too. */
  function PairFilled(s: State, l: nat, t: nat, amount: nat): State
    requires l in s.orders && t in s.orders && t in s.exits && amount <= s.orders[l].sz && amount <= s.orders[t].sz
  {
    ExitFilled(s.(touched := s.touched + {t},
                  orders := s.orders[l := Less(s.orders[l], amount)][t := Less(s.orders[t], amount)]), t, amount)
  }

  function Less(o: Order, amount: nat): Order
    requires amount <= o.sz
  {
    o.(sz := o.sz - amount)
  }

  lemma PairFilledOk(s: State, l: nat, t: nat, amount: nat, w: nat, left: nat)
    requires Inv(s, w, left) && Paired(s.orders, l, t) && t in s.exits && 0 < amount < s.orders[t].sz
      && amount <= s.orders[l].sz
    ensures var s' := PairFilled(s, l, t, amount); Inv(s', w, left) && Potential(s') == Potential(s)
  {
    hide Symmetric, Exclusive, Booked, Active, Numbered, Positioned, PairFilled;
    PairedFacts(s, l, t, w, left);
    FilledSymmetric(s, l, t, amount);
    FilledExclusive(s, l, t, amount);
    FilledBooked(s, l, t, amount, w, left);
    FilledRest(s, l, t, amount);
  }

  lemma FilledSymmetric(s: State, l: nat, t: nat, amount: nat)
    requires Symmetric(s.orders) && Paired(s.orders, l, t) && t in s.exits && 0 < amount < s.orders[t].sz
      && amount <= s.orders[l].sz
    ensures Symmetric(PairFilled(s, l, t, amount).orders)
  {
    ResizedSymmetric(s.orders, t, l, s.orders[t].sz - amount);
  }

  lemma FilledExclusive(s: State, l: nat, t: nat, amount: nat)
    requires Exclusive(s.orders, s.touched, s.pairs, s.spoilt, s.lastId) && Paired(s.orders, l, t) && t in s.exits
    requires amount <= s.orders[t].sz && amount <= s.orders[l].sz
    ensures var s' := PairFilled(s, l, t, amount); Exclusive(s'.orders, s'.touched, s'.pairs, s'.spoilt, s'.lastId)
  {
    hide Exclusive;
    TouchExclusive(s.orders, PairFilled(s, l, t, amount).orders, s.touched, s.pairs, s.spoilt, s.lastId, s.lastId, t);
  }

  lemma FilledBooked(s: State, l: nat, t: nat, amount: nat, w: nat, left: nat)
    requires Booked(s, w, left) && Paired(s.orders, l, t) && t in s.exits && t != w && s.orders[l].stop && l != t
    requires amount <= s.orders[t].sz && amount <= s.orders[l].sz
    ensures Booked(PairFilled(s, l, t, amount), w, left)
  {
  }

  lemma FilledPotential(s: State, l: nat, t: nat, amount: nat)
    requires Numbered(s) && Paired(s.orders, l, t) && t in s.exits && l != t && s.orders[l].cond == Exit(t)
    requires amount <= s.orders[t].sz && amount <= s.orders[l].sz
    ensures Potential(PairFilled(s, l, t, amount)) == Potential(s) && Numbered(PairFilled(s, l, t, amount))
  {
    var s1 := s.(orders := s.orders[l := Less(s.orders[l], amount)]);
    SetPotential(s, l, Less(s.orders[l], amount));
    SetPotential(s1, t, Less(s.orders[t], amount));
    assert PairFilled(s, l, t, amount).orders == s1.orders[t := Less(s.orders[t], amount)];
  }

  lemma FilledRest(s: State, l: nat, t: nat, amount: nat)
    requires Numbered(s) && Active(s) && Positioned(s) && Paired(s.orders, l, t) && t in s.exits && l != t
      && s.orders[l].cond == Exit(t)
    requires amount <= s.orders[t].sz && amount <= s.orders[l].sz
    ensures var s' := PairFilled(s, l, t, amount);
      Numbered(s') && Active(s') && Positioned(s') && Potential(s') == Potential(s)
  {
    ExitIds(s);
    FilledPotential(s, l, t, amount);
    hide Numbered, Active, Positioned;
    SameActive(s, PairFilled(s, l, t, amount));
    SamePositioned(s, PairFilled(s, l, t, amount));
  }

  /** Both orders of a pair are gone, as account x of the pair says. */
  function PairClosed(s: State, l: nat, t: nat, x: Pair, touched: set<nat>): State {
    s.(orders := s.orders - {l, t}, exits := s.exits[t := x], touched := touched)
  }

  /** The account of a pair once its open size was filled, lost or cancelled. */
  predicate Settles(x: Pair, x': Pair, sz: nat) {
    x'.entry == x.entry && x'.size == x.size
      && x'.filled + x'.lost + x'.cancelled == x.filled + x.lost + x.cancelled + sz
  }

  lemma PairClosedOk(s: State, l: nat, t: nat, x: Pair, touched: set<nat>, w: nat, left: nat)
    requires Inv(s, w, left) && Paired(s.orders, l, t) && t in s.exits && Settles(s.exits[t], x, s.orders[t].sz)
    requires touched == s.touched || touched == s.touched + {t} || touched == s.touched + {l}
    ensures var s' := PairClosed(s, l, t, x, touched);
      Inv(s', w, left) && Potential(s') == Potential(s) - Weight(s.orders[l]) - Weight(s.orders[t])
  {
    hide Symmetric, Exclusive, Booked, Active, Numbered, Positioned, PairClosed, Settles;
    PairedFacts(s, l, t, w, left);
    ClosedSymmetric(s, l, t);
    ClosedExclusive(s, l, t, touched);
    ClosedBooked(s, l, t, x, touched, w, left);
    ClosedRest(s, l, t, x, touched);
    assert PairClosed(s, l, t, x, touched).orders == s.orders - {l, t} by {
      ClosedFields(s, l, t, x, touched);
    }
    ClosedFields(s, l, t, x, touched);
  }

  lemma ClosedFields(s: State, l: nat, t: nat, x: Pair, touched: set<nat>)
    ensures var s' := PairClosed(s, l, t, x, touched);
      s'.orders == s.orders - {l, t} && s'.touched == touched && s'.pairs == s.pairs && s'.spoilt == s.spoilt
        && s'.lastId == s.lastId
  {
  }

  lemma ClosedSymmetric(s: State, l: nat, t: nat)
    requires Symmetric(s.orders) && Paired(s.orders, l, t)
    ensures Symmetric(s.orders - {l, t})
  {
  }

  lemma ClosedExclusive(s: State, l: nat, t: nat, touched: set<nat>)
    requires Exclusive(s.orders, s.touched, s.pairs, s.spoilt, s.lastId) && Paired(s.orders, l, t)
      && s.orders[l].cond.Exit?
    requires touched == s.touched || touched == s.touched + {t} || touched == s.touched + {l}
    ensures Exclusive(s.orders - {l, t}, touched, s.pairs, s.spoilt, s.lastId)
  {
    hide Exclusive;
    var orders' := s.orders - {l, t};
    if touched == s.touched {
      SizeExclusive(s.orders, orders', s.touched, s.pairs, s.spoilt, s.lastId);
    } else if touched == s.touched + {t} {
      TouchExclusive(s.orders, orders', s.touched, s.pairs, s.spoilt, s.lastId, s.lastId, t);
    } else {
      TouchExclusive(s.orders, orders', s.touched, s.pairs, s.spoilt, s.lastId, s.lastId, l);
    }
  }

  lemma ClosedBooked(s: State, l: nat, t: nat, x: Pair, touched: set<nat>, w: nat, left: nat)
    requires Booked(s, w, left) && Symmetric(s.orders) && Paired(s.orders, l, t) && t in s.exits && t != w
      && s.orders[l].stop
    requires Settles(s.exits[t], x, s.orders[t].sz)
    ensures Booked(PairClosed(s, l, t, x, touched), w, left)
  {
  }

  lemma ClosedPotential(s: State, l: nat, t: nat, x: Pair, touched: set<nat>)
    requires Numbered(s) && l in s.orders && t in s.orders && l != t
    ensures Potential(PairClosed(s, l, t, x, touched)) == Potential(s) - Weight(s.orders[l]) - Weight(s.orders[t])
  {
    WeightRemove(s.orders, s.lastId, l);
    WeightRemove(s.orders - {l}, s.lastId, t);
    assert s.orders - {l} - {t} == s.orders - {l, t};
  }

  lemma ClosedNumbered(s: State, l: nat, t: nat, x: Pair, touched: set<nat>)
    requires Numbered(s) && l in s.orders && t in s.orders && t in s.exits
    requires touched == s.touched || touched == s.touched + {t} || touched == s.touched + {l}
    ensures Numbered(PairClosed(s, l, t, x, touched))
  {
  }

  lemma ClosedRest(s: State, l: nat, t: nat, x: Pair, touched: set<nat>)
    requires Numbered(s) && Active(s) && Positioned(s) && Paired(s.orders, l, t) && t in s.exits && l != t
    requires Settles(s.exits[t], x, s.orders[t].sz)
    requires touched == s.touched || touched == s.touched + {t} || touched == s.touched + {l}
    ensures var s' := PairClosed(s, l, t, x, touched);
      && Numbered(s') && Active(s') && Positioned(s')
      && Potential(s') == Potential(s) - Weight(s.orders[l]) - Weight(s.orders[t])
  {
    var s' := PairClosed(s, l, t, x, touched);
    hide Numbered, Active, Positioned;
    ExitIds(s);
    ClosedNumbered(s, l, t, x, touched);
    ClosedPotential(s, l, t, x, touched);
    SameActive(s, s');
    SamePositioned(s, s');
  }

  lemma ShrunkApart(orders: map<nat, Order>, id: nat, amount: nat, l: nat, x: Order, t: nat, y: Order)
    requires id in orders && amount <= orders[id].sz && id != l && id != t
    ensures Shrunk(orders[l := x][t := y], id, amount) == Shrunk(orders, id, amount)[l := x][t := y]
  {
  }

  lemma HitGrows(s: State, id: nat, amount: nat)
    requires CanHit(s, id, amount) && s.orders[id].cond.Entry?
    ensures var l, t := s.orders[id].cond.loss, s.orders[id].cond.target;
      var s0 := s.(orders := Shrunk(s.orders, id, amount), touched := s.touched + {id});
      if t != 0 && l in s.orders && t in s.orders && t in s.exits then
        l != id && t != id ==>
          && l in s0.orders && t in s0.orders
          && Dealt(s, id, amount) == Filled(PairGrown(s0, id, l, t, amount), id, amount)
      else Dealt(s, id, amount) == Filled(OpenNew(s0, id, amount), id, amount)
  {
    var l, t := s.orders[id].cond.loss, s.orders[id].cond.target;
    if t != 0 && l in s.orders && t in s.orders && t in s.exits && l != id && t != id {
      ShrunkApart(s.orders, id, amount, l, Grown(s.orders[l], amount), t, Grown(s.orders[t], amount));
    }
  }

  lemma HitEntry(s: State, id: nat, amount: nat, w: nat, left: nat)
    requires Inv(s, w, left) && CanHit(s, id, amount) && s.orders[id].cond.Entry?
    ensures Inv(Dealt(s, id, amount), w, left) && Potential(Dealt(s, id, amount)) <= Potential(s)
  {
    var l, t := s.orders[id].cond.loss, s.orders[id].cond.target;
    var s0 := s.(orders := Shrunk(s.orders, id, amount), touched := s.touched + {id});
    HitPlain(s, id, amount, w, left);
    EntryFacts(s, id, w, left);
    HitGrows(s, id, amount);
    StillEntry(s, id, amount, l, t);
    hide Inv, Potential, Dealt, PairGrown, OpenNew, Shrunk, Numbered;
    if t != 0 && l in s.orders && t in s.orders && t in s.exits {
      PairGrownOk(s0, id, l, t, amount, w, left);
    } else {
      OpenNewOk(s0, id, amount, w, left);
    }
  }

  lemma StillEntry(s: State, id: nat, amount: nat, l: nat, t: nat)
    requires CanHit(s, id, amount) && s.orders[id].cond.Entry?
    ensures var orders' := Shrunk(s.orders, id, amount);
      && (id in orders' ==> orders'[id].cond.Entry?)
      && (l != id && t != id && Paired(s.orders, l, t) ==> Paired(orders', l, t))
  {
  }

  /** The active pair of an entry is linked while it rests. */
  lemma EntryFacts(s: State, e: nat, w: nat, left: nat)
    requires Inv(s, w, left) && e in s.orders && s.orders[e].cond.Entry?
    ensures e <= s.lastId && e in s.fills && NotQueued(s, e)
    ensures var l, t := s.orders[e].cond.loss, s.orders[e].cond.target;
      t != 0 && l in s.orders && t in s.orders && t in s.exits ==>
        Paired(s.orders, l, t) && s.exits[t].entry == e && l != e && t != e
  {
    hide Exclusive, Booked;
  }

  lemma ExitFacts(s: State, id: nat, w: nat, left: nat)
    requires Inv(s, w, left) && id in s.orders && s.orders[id].cond.Exit?
    ensures var p := s.orders[id].cond.partner;
      var t := if s.orders[id].stop then p else id;
      var l := if s.orders[id].stop then id else p;
      p in s.orders && p != id && Paired(s.orders, l, t) && t in s.exits && s.orders[p].sz == s.orders[id].sz
        && s.orders[l].stop
  {
    hide Exclusive, Active, Positioned, Numbered;
    assert TargetOf(s.orders, id) in s.exits;
  }

  lemma HitFills(s: State, id: nat, p: nat, amount: nat)
    requires CanHit(s, id, amount) && s.orders[id].cond == Exit(p) && p in s.orders && p != id
      && s.orders[p].sz == s.orders[id].sz && id in s.exits
    ensures Dealt(s, id, amount) ==
      if amount < s.orders[id].sz then PairFilled(s, p, id, amount)
      else PairClosed(s, p, id, s.exits[id].(filled := s.exits[id].filled + amount), s.touched + {id})
  {
    if amount == s.orders[id].sz {
      assert (s.orders - {p})[id := s.orders[id].(cond := Free)] - {id} == s.orders - {p, id};
    }
  }

  lemma HitExit(s: State, id: nat, amount: nat, w: nat, left: nat)
    requires Inv(s, w, left) && CanHit(s, id, amount) && s.orders[id].cond.Exit?
    ensures Inv(Dealt(s, id, amount), w, left) && Potential(Dealt(s, id, amount)) <= Potential(s)
  {
    var p := s.orders[id].cond.partner;
    ExitFacts(s, id, w, left);
    hide Inv, Potential, Dealt, PairFilled, PairClosed;
    HitFills(s, id, p, amount);
    if amount < s.orders[id].sz {
      PairFilledOk(s, p, id, amount, w, left);
    } else {
      PairClosedOk(s, p, id, s.exits[id].(filled := s.exits[id].filled + amount), s.touched + {id}, w, left);
    }
  }

  lemma DealtOk(s: State, id: nat, amount: nat, w: nat, left: nat)
    requires Inv(s, w, left) && CanHit(s, id, amount)
    ensures Inv(Dealt(s, id, amount), w, left) && Potential(Dealt(s, id, amount)) <= Potential(s)
  {
    hide Inv, Potential, Shrunk, Close;
    var o := s.orders[id];
    match o.cond
    case Free => HitPlain(s, id, amount, w, left);
    case Oco(_, full) =>
      ClosedSize(s, id, w, left);
      if !full || amount == o.sz {
        HitOco(s, id, amount, w, left);
      } else {
        HitPlain(s, id, amount, w, left);
      }
    case Oto(_, full) =>
      if !full || amount == o.sz {
        HitOto(s, id, amount, w, left);
      } else {
        HitPlain(s, id, amount, w, left);
      }
    case Entry(_, _) => HitEntry(s, id, amount, w, left);
    case Exit(_) => HitExit(s, id, amount, w, left);
  }

  /** A fill of a resting order keeps the books of all linked orders in order, and brings
      no more orders into the window than were reckoned with. */
  lemma HitOk(s: State, id: nat, amount: nat, w: nat, left: nat)
    requires Inv(s, w, left) && CanHit(s, id, amount)
    ensures Inv(Hit(s, id, amount), w, left) && Potential(Hit(s, id, amount)) <= Potential(s)
  {
    hide Inv, Potential, Dealt;
    DealtOk(s, id, amount, w, left);
    var s1 := Dealt(s, id, amount);
    NotedOk(s1, s1.done + {id}, s1.legs, s1.fired, w, left);
  }

  lemma ClosedSize(s: State, id: nat, w: nat, left: nat)
    requires Inv(s, w, left) && id in s.orders && s.orders[id].cond.Oco?
    ensures id in Close(s.orders, id) && Close(s.orders, id)[id].sz == s.orders[id].sz
  {
  }

  /* ---- a resting stop is triggered ---- */

  lemma GoneOk(s: State, id: nat, w: nat, left: nat)
    requires Inv(s, w, left) && id in s.orders && (s.orders[id].cond.Free? || s.orders[id].cond.Oto?)
    ensures var s' := s.(orders := s.orders - {id}, touched := s.touched + {id});
      Inv(s', w, left) && Potential(s') == Potential(s) - Weight(s.orders[id])
  {
    RemoveSymmetric(s.orders, id);
    RemovePotential(s, id);
    GoneSame(s.orders, id, id);
    hide Symmetric, Exclusive, Booked, Active, Positioned, Numbered;
    ChangeOk(s, s.orders - {id}, id, w, left);
  }

  lemma GoneSame(orders: map<nat, Order>, id: nat, p: nat)
    requires id in orders && !orders[id].cond.Exit?
    requires p in orders && !orders[p].cond.Exit?
    requires orders[id].cond.Oco? ==> orders[id].cond.partner == p
    ensures var orders' := orders - {id, p};
      Fewer(orders, orders', id) && SameExits(orders, orders') && SameRoles(orders,
        orders') && orders'.Keys <= orders.Keys
    ensures id == p ==> orders - {id, p} == orders - {id}
  {
  }

  lemma GoneOcoOk(s: State, id: nat, w: nat, left: nat)
    requires Inv(s, w, left) && id in s.orders && s.orders[id].cond.Oco?
    ensures var p := s.orders[id].cond.partner;
      var s' := s.(orders := s.orders - {id, p}, touched := s.touched + {id});
      p in s.orders && p != id && Inv(s', w, left)
        && Potential(s') == Potential(s) - Weight(s.orders[id]) - Weight(s.orders[p])
  {
    var p := s.orders[id].cond.partner;
    var s1 := s.(orders := s.orders - {id});
    OcoGone(s.orders, id);
    assert Numbered(s1);
    RemovePotential(s, id);
    RemovePotential(s1, p);
    assert s1.orders - {p} == s.orders - {id, p};
    GoneSame(s.orders, id, p);
    hide Symmetric, Exclusive, Booked, Active, Positioned, Numbered;
    ChangeOk(s, s.orders - {id, p}, id, w, left);
  }

  lemma OcoGone(orders: map<nat, Order>, id: nat)
    requires Symmetric(orders) && id in orders && orders[id].cond.Oco?
    ensures var p := orders[id].cond.partner;
      p in orders && p != id && orders[p].cond.Oco? && Symmetric(orders - {id, p})
  {
  }

  /** A step to s1 that makes room for the order pushed then. */
  lemma ThenPush(s: State, s1: State, terms: Terms, w: nat, left: nat)
    requires Inv(s1, w, left) && terms.sz > 0 && Potential(s1) + TermsWeight(terms) < Potential(s)
    ensures Inv(Push(s1, terms), w, left) && Potential(Push(s1, terms)) < Potential(s)
  {
    hide Inv, Potential, Push;
    PushOk(s1, terms, w, left);
  }

  lemma TriggeredExitIs(s: State, id: nat, market: bool)
    requires CanTrigger(s, id) && s.orders[id].cond.Exit? && s.orders[id].cond.partner in s.exits
    ensures var o := s.orders[id];
      var p := o.cond.partner;
      var x := s.exits[p].(lost := s.exits[p].lost + o.sz);
      && Sprung(s, id, market) == Push(PairClosed(s, id, p, x, s.touched + {id}),
        Terms(if market then Market else Limit, o.sz))
      && Settles(s.exits[p], x, o.sz)
  {
    var o := s.orders[id];
    assert (s.orders - {o.cond.partner})[id := o.(cond := Free)] - {id} == s.orders - {id, o.cond.partner};
  }

  lemma TriggeredExit(s: State, id: nat, market: bool, w: nat, left: nat)
    requires Inv(s, w, left) && CanTrigger(s, id) && s.orders[id].cond.Exit?
    ensures Inv(Sprung(s, id, market), w, left) && Potential(Sprung(s, id, market)) < Potential(s)
  {
    hide Inv, Potential, Sprung, Push, PairClosed, Settles, Weight, Paired;
    var o := s.orders[id];
    var p := o.cond.partner;
    StopFacts(s, id, w, left);
    ExitFacts(s, id, w, left);
    TriggeredExitIs(s, id, market);
    var x := s.exits[p].(lost := s.exits[p].lost + o.sz);
    PairClosedOk(s, id, p, x, s.touched + {id}, w, left);
    ThenPush(s, PairClosed(s, id, p, x, s.touched + {id}), Terms(if market then Market else Limit, o.sz), w, left);
  }

  lemma SprungOco(s: State, id: nat, market: bool)
    requires CanTrigger(s, id) && s.orders[id].cond.Oco?
    ensures var o := s.orders[id];
      var s1 := s.(orders := s.orders - {id, o.cond.partner}, touched := s.touched + {id});
      Sprung(s, id, market) == Push(s1, Terms(if market then Market else Limit, o.sz))
  {
    var o := s.orders[id];
    assert (s.orders - {o.cond.partner})[id := o.(cond := Free)] - {id} == s.orders - {id, o.cond.partner};
  }

  lemma TriggeredOco(s: State, id: nat, market: bool, w: nat, left: nat)
    requires Inv(s, w, left) && CanTrigger(s, id) && s.orders[id].cond.Oco?
    ensures Inv(Sprung(s, id, market), w, left) && Potential(Sprung(s, id, market)) < Potential(s)
  {
    hide Inv, Potential, Sprung, Push, PairClosed;
    var o := s.orders[id];
    var s1 := s.(orders := s.orders - {id, o.cond.partner}, touched := s.touched + {id});
    StopFacts(s, id, w, left);
    SprungOco(s, id, market);
    GoneOcoOk(s, id, w, left);
    ThenPush(s, s1, Terms(if market then Market else Limit, o.sz), w, left);
  }

  lemma SprungOto(s: State, id: nat, market: bool)
    requires CanTrigger(s, id) && s.orders[id].cond.Oto?
    ensures var o := s.orders[id];
      var s1 := s.(orders := s.orders - {id}, touched := s.touched + {id}, fired := s.fired + [id]);
      Sprung(s, id, market) == Push(Push(s1, Terms(if market then Market else Limit, o.sz)), o.cond.next)
  {
    assert s.orders[id := s.orders[id].(cond := Free)] - {id} == s.orders - {id};
  }

  lemma TriggeredOto(s: State, id: nat, market: bool, w: nat, left: nat)
    requires Inv(s, w, left) && CanTrigger(s, id) && s.orders[id].cond.Oto?
    ensures Inv(Sprung(s, id, market), w, left) && Potential(Sprung(s, id, market)) < Potential(s)
  {
    hide Inv, Potential, Sprung, Push, PairClosed;
    var o := s.orders[id];
    var terms := Terms(if market then Market else Limit, o.sz);
    StopFacts(s, id, w, left);
    var s0 := s.(orders := s.orders - {id}, touched := s.touched + {id});
    var s1 := s0.(fired := s.fired + [id]);
    SprungOto(s, id, market);
    GoneOk(s, id, w, left);
    NotedOk(s0, s.done, s.legs, s.fired + [id], w, left);
    PushOk(s1, terms, w, left);
    ThenPush(s, Push(s1, terms), o.cond.next, w, left);
  }

  lemma TriggeredFree(s: State, id: nat, market: bool, w: nat, left: nat)
    requires Inv(s, w, left) && CanTrigger(s, id) && s.orders[id].cond.Free?
    ensures Inv(Sprung(s, id, market), w, left) && Potential(Sprung(s, id, market)) < Potential(s)
  {
    var o := s.orders[id];
    var terms := Terms(if market then Market else Limit, o.sz);
    StopFacts(s, id, w, left);
    hide Inv, Potential;
    var s1 := s.(orders := s.orders - {id}, touched := s.touched + {id});
    assert Sprung(s, id, market) == Push(s1, terms);
    hide Sprung, Push, PairClosed;
    GoneOk(s, id, w, left);
    ThenPush(s, s1, terms, w, left);
  }

  lemma SprungOk(s: State, id: nat, market: bool, w: nat, left: nat)
    requires Inv(s, w, left) && CanTrigger(s, id)
    ensures Inv(Sprung(s, id, market), w, left) && Potential(Sprung(s, id, market)) < Potential(s)
  {
    StopFacts(s, id, w, left);
    hide Inv, Potential, Sprung;
    match s.orders[id].cond
    case Free => TriggeredFree(s, id, market, w, left);
    case Oco(_, _) => TriggeredOco(s, id, market, w, left);
    case Oto(_, _) => TriggeredOto(s, id, market, w, left);
    case Exit(_) => TriggeredExit(s, id, market, w, left);
  }

  /** A triggered stop becomes one order to come, and takes what it was linked to with it. */
  lemma TriggeredOk(s: State, id: nat, market: bool, w: nat, left: nat)
    requires Inv(s, w, left) && CanTrigger(s, id)
    ensures Inv(Triggered(s, id, market), w, left) && Potential(Triggered(s, id, market)) < Potential(s)
  {
    hide Inv, Potential, Sprung;
    SprungOk(s, id, market, w, left);
    var s1 := Sprung(s, id, market);
    NotedOk(s1, s1.done + {id}, s1.legs, s1.fired, w, left);
  }

  lemma StopFacts(s: State, id: nat, w: nat, left: nat)
    requires Inv(s, w, left) && CanTrigger(s, id)
    ensures s.orders[id].sz > 0 && Weight(s.orders[id]) >= 2 && !s.orders[id].cond.Entry?
      && (s.orders[id].cond.Oto? ==> s.orders[id].cond.next.sz > 0)
  {
    hide Exclusive, Booked, Active, Positioned, Numbered;
  }
}
