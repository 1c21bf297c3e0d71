/** Linked orders on a book with prices: an order that trades or is triggered acts on the orders it
    is linked to at once, while the book is still being walked. */
module Joint {
  import opened Ladder
  import opened Matcher
  import opened Priority
  import opened Desk
  import opened Reference
  import opened Plain
  import opened Groundwork
  import opened OneCancels
  import Linked
  import Routing
  import Contingent

  /** A floor, and what its orders are linked to. New ids are those of the linked orders; the queue
      is theirs, too. */
  datatype Whole = Whole(f: Floor, s: Linked.State)

  /* ---- the book follows the linked orders ---- */

  /** The orders of a chain that still rest, with the sizes they have now. */
  function Live(c: seq<Bundle>, orders: map<nat, Linked.Order>): seq<Bundle> {
    if c == [] then []
    else (if c[0].id in orders then [Resized(c[0], orders[c[0].id].sz)] else []) + Live(c[1..], orders)
  }

  function Followed(book: seq<Level>, orders: map<nat, Linked.Order>): (r: seq<Level>)
    ensures |r| == |book|
    ensures forall p :: 0 <= p < |book| ==>
      r[p] == book[p].(limits := Live(book[p].limits, orders), stops := Live(book[p].stops, orders))
  {
    seq(|book|, p requires 0 <= p < |book| =>
      book[p].(limits := Live(book[p].limits, orders), stops := Live(book[p].stops, orders)))
  }

  /** The order that a fill of amount pulls along, 0 if there is none. */
  function Pulls(o: Linked.Order, amount: nat): nat {
    match o.cond
    case Oco(p, full) => if !full || amount == o.sz then p else 0
    case Exit(p) => if amount == o.sz then p else 0
    case _ => 0
  }

  /** The level below n where id rests as a stop, 0 if it does not. */
  function StopLevel(book: seq<Level>, id: nat, n: nat): (p: nat)
    requires n <= |book|
    ensures p < n || p == 0
    ensures p > 0 ==> IndexOf(book[p].stops, id) < |book[p].stops|
  {
    if n == 0 then 0
    else if n > 1 && IndexOf(book[n - 1].stops, id) < |book[n - 1].stops| then n - 1
    else StopLevel(book, id, n - 1)
  }

  /** The floor with book for its levels, once id was pulled: if that was a stop, the window of its
      side may shrink. */
  function Shut(f: Floor, book: seq<Level>, id: nat): (r: Floor)
    requires |book| == |f.book|
    ensures r.book == book && r.last == f.last && r.bid == f.bid && r.ask == f.ask && r.lastId == f.lastId
      && r.check == f.check
    ensures f.highSellStop < |f.book| ==> r.highSellStop < |book|
  {
    var p := StopLevel(f.book, id, |f.book|);
    if p == 0 then f.(book := book)
    else
      var b := f.book[p].stops[IndexOf(f.book[p].stops, id)];
      if b.Stop? then StopGone(f, book, b.isBuy, p) else f.(book := book)
  }

  /* ---- matching ---- */

  /** id trades amount with an incoming order. */
  function Strike(w: Whole, id: nat, amount: nat): (r: Whole)
    requires Linked.CanHit(w.s, id, amount)
    ensures |r.f.book| == |w.f.book| && r.f.last == w.f.last && r.f.bid == w.f.bid && r.f.ask == w.f.ask
      && r.f.lastId == w.f.lastId && r.f.check == w.f.check
    ensures w.f.highSellStop < |w.f.book| ==> r.f.highSellStop < |w.f.book|
  {
    var s := Linked.Hit(w.s, id, amount);
    Whole(Shut(w.f, Followed(w.f.book, s.orders), Pulls(w.s.orders[id], amount)), s)
  }

  /** What a walk leaves: the floor and the links, the trades, and the size still to trade. */
  datatype Walked = Walked(w: Whole, fills: seq<Fill>, left: nat)

  function Min(a: nat, b: nat): nat {
    if a < b then a else b
  }

  /** A limit chain is hit, the oldest order first; whom that pulls is gone before the next is hit. */
  function StrikeChain(w: Whole, p: nat, size: nat): (r: Walked)
    requires p < |w.f.book|
    ensures |r.w.f.book| == |w.f.book| && r.w.f.last == w.f.last && r.w.f.bid == w.f.bid && r.w.f.ask == w.f.ask
      && r.w.f.lastId == w.f.lastId && r.w.f.check == w.f.check && r.left <= size
    ensures w.f.highSellStop < |w.f.book| ==> r.w.f.highSellStop < |w.f.book|
    decreases size
  {
    var c := w.f.book[p].limits;
    if size == 0 || c == [] || !Linked.CanHit(w.s, c[0].id, Min(size, c[0].sz)) then Walked(w, [], size)
    else
      var amount := Min(size, c[0].sz);
      var r := StrikeChain(Strike(w, c[0].id, amount), p, size - amount);
      r.(fills := [Fill(p, c[0].id, amount)] + r.fills)
  }

  /** All levels of the side being hit from p out to limit, while there is size left. */
  function Walk(w: Whole, bids: bool, inside: nat, p: nat, limit: nat, size: nat): (r: Walked)
    requires OnBook(|w.f.book|, bids, p, limit)
    ensures |r.w.f.book| == |w.f.book| && r.w.f.last == w.f.last && r.w.f.bid == w.f.bid && r.w.f.ask == w.f.ask
      && r.w.f.lastId == w.f.lastId && r.w.f.check == w.f.check && r.left <= size
    ensures w.f.highSellStop < |w.f.book| ==> r.w.f.highSellStop < |w.f.book|
    decreases if bids then p else |w.f.book| - p
  {
    if size == 0 || !InsideOf(bids, p, limit) then Walked(w, [], size)
    else
      var h := if OnSide(bids, p, inside) then StrikeChain(w, p, size) else Walked(w, [], size);
      var r := Walk(h.w, bids, inside, Next(bids, p), limit, h.left);
      Walked(r.w, h.fills + r.fills, r.left)
  }

  /** An order is sent to a side of the book, up to level plev. */
  function WalkOf(w: Whole, bids: bool, plev: nat, size: nat): (r: Walked)
    requires 0 < plev < |w.f.book|
    ensures |r.w.f.book| == |w.f.book| && r.w.f.check == w.f.check && r.left <= size
    ensures w.f.highSellStop < |w.f.book| ==> r.w.f.highSellStop < |w.f.book|
  {
    var r := Walk(w, bids, InsideLevel(w.f, bids), Outermost(bids, |w.f.book|), plev, size);
    r.(w := r.w.(f := r.w.f.(last := LastLevel(r.fills, w.f.last))))
  }

  /* ---- stops ---- */

  /** The stop b is triggered, if it still rests. */
  function Spring(w: Whole, b: Bundle): (r: Whole)
    ensures |r.f.book| == |w.f.book| && r.f.last == w.f.last && r.f.check == w.f.check
      && r.f.bid == w.f.bid && r.f.ask == w.f.ask
    ensures w.f.highSellStop < |w.f.book| ==> r.f.highSellStop < |w.f.book|
  {
    if !Linked.CanTrigger(w.s, b.id) then w
    else
      var s := Linked.Triggered(w.s, b.id, b.Stop? && b.limit == 0);
      Whole(Shut(w.f, Followed(w.f.book, s.orders), Pulls(w.s.orders[b.id], w.s.orders[b.id].sz)), s)
  }

  function SpringAll(w: Whole, c: seq<Bundle>): (r: Whole)
    ensures |r.f.book| == |w.f.book| && r.f.last == w.f.last && r.f.check == w.f.check
      && r.f.bid == w.f.bid && r.f.ask == w.f.ask
    ensures w.f.highSellStop < |w.f.book| ==> r.f.highSellStop < |w.f.book|
    decreases |c|
  {
    if c == [] then w else SpringAll(Spring(w, c[0]), c[1..])
  }

  /** The stop chain of p is taken out on behalf of a side, whose window is then past it. */
  function Freed(f: Floor, buys: bool, p: nat): (r: Floor)
    requires p < |f.book|
    ensures |r.book| == |f.book| && r.last == f.last && r.check == f.check && r.bid == f.bid && r.ask == f.ask
    ensures f.highSellStop < |f.book| ==> r.highSellStop < |f.book|
  {
    var f1 := f.(book := f.book[p := f.book[p].(stops := [])]);
    if buys then
      if p + 1 > f.highBuyStop then f1.(lowBuyStop := |f.book|, highBuyStop := 0) else f1.(lowBuyStop := p + 1)
    else
      if p < f.lowSellStop + 1 then f1.(highSellStop := 0, lowSellStop := |f.book|) else f1.(highSellStop := p - 1)
  }

  /** The stops of p are triggered, the oldest first. */
  function TakeLevel(w: Whole, buys: bool, p: nat): (r: Whole)
    requires p < |w.f.book|
    ensures |r.f.book| == |w.f.book| && r.f.last == w.f.last && r.f.check == w.f.check
      && r.f.bid == w.f.bid && r.f.ask == w.f.ask
    ensures w.f.highSellStop < |w.f.book| ==> r.f.highSellStop < |w.f.book|
  {
    SpringAll(w.(f := Freed(w.f, buys, p)), w.f.book[p].stops)
  }

  /** What a pass over stops leaves, and the chains it took. */
  datatype Passing = Passing(w: Whole, taken: seq<Bundle>)

  function Up(w: Whole, p: nat, last: nat): (r: Passing)
    ensures |r.w.f.book| == |w.f.book| && r.w.f.last == w.f.last && r.w.f.check == w.f.check
      && r.w.f.bid == w.f.bid && r.w.f.ask == w.f.ask
    ensures w.f.highSellStop < |w.f.book| ==> r.w.f.highSellStop < |w.f.book|
    decreases last + 1 - p
  {
    if p > last || p >= |w.f.book| then Passing(w, [])
    else
      var r := Up(TakeLevel(w, true, p), p + 1, last);
      r.(taken := w.f.book[p].stops + r.taken)
  }

  function Down(w: Whole, p: nat, last: nat): (r: Passing)
    ensures |r.w.f.book| == |w.f.book| && r.w.f.last == w.f.last && r.w.f.check == w.f.check
      && r.w.f.bid == w.f.bid && r.w.f.ask == w.f.ask
    ensures w.f.highSellStop < |w.f.book| ==> r.w.f.highSellStop < |w.f.book|
    decreases p
  {
    if p < last || p == 0 || p >= |w.f.book| then Passing(w, [])
    else
      var r := Down(TakeLevel(w, false, p), p - 1, last);
      r.(taken := w.f.book[p].stops + r.taken)
  }

  /** Stops are checked: buy stops upwards from the lowest to the last price, then sell stops
      downwards from the highest, whole chains at a time. */
  function Checked(w: Whole): (r: Passing)
    ensures |r.w.f.book| == |w.f.book| && r.w.f.check == w.f.check
    ensures w.f.highSellStop < |w.f.book| ==> r.w.f.highSellStop < |w.f.book|
  {
    var u := Up(w, w.f.lowBuyStop, w.f.last);
    var d := Down(u.w, u.w.f.highSellStop, w.f.last);
    Passing(d.w, u.taken + d.taken)
  }

  /* ---- orders enter ---- */

  function TermsOf(t: Ticket): Linked.Terms {
    Linked.Terms(if t.otype.Market? then Linked.Market
      else if t.otype.LimitOrder? then Linked.Limit else Linked.Stop, t.sz)
  }

  function Hits(fills: seq<Fill>): (r: seq<(nat, nat)>)
    ensures |r| == |fills| && forall i :: 0 <= i < |fills| ==> r[i] == (fills[i].maker, fills[i].size)
  {
    seq(|fills|, i requires 0 <= i < |fills| => (fills[i].maker, fills[i].size))
  }

  function Triggers(bs: seq<Bundle>): (r: seq<(nat, bool)>)
    ensures |r| == |bs| && forall i :: 0 <= i < |bs| ==> r[i] == (bs[i].id, bs[i].Stop? && bs[i].limit == 0)
  {
    seq(|bs|, i requires 0 <= i < |bs| => (bs[i].id, bs[i].Stop? && bs[i].limit == 0))
  }

  /** A new order has its id. */
  function Numbered(w: Whole): Whole {
    w.(s := Contingent.NewId(w.s))
  }

  /** The walk of a limit order that enters. */
  function Entering(w: Whole, t: Ticket, base: nat): (r: Walked)
    requires |w.f.book| > 1 && Acceptable(t, base, |w.f.book|) && t.otype.LimitOrder?
    ensures |r.w.f.book| == |w.f.book| && r.w.f.check == w.f.check && r.left <= t.sz
    ensures w.f.highSellStop < |w.f.book| ==> r.w.f.highSellStop < |w.f.book|
  {
    WalkOf(Numbered(w), !t.isBuy, LevelOf(t.limit, base), t.sz)
  }

  /** What the book answers to an order that enters: whom it trades with, and which stops that
      triggers. */
  function Answer(w: Whole, t: Ticket, base: nat): Linked.Call
    requires |w.f.book| > 1 && Acceptable(t, base, |w.f.book|)
  {
    if !t.otype.LimitOrder? then Linked.Call([], [])
    else
      var r := Entering(w, t, base);
      Linked.Call(Hits(r.fills), if r.fills == [] then [] else Triggers(Checked(r.w).taken))
  }

  /** A limit or stop order enters, under the next id. */
  function Enters(w: Whole, t: Ticket, base: nat): (r: Whole)
    requires |w.f.book| > 1 && Acceptable(t, base, |w.f.book|) && !t.otype.Market?
    ensures |r.f.book| == |w.f.book|
  {
    var id := w.s.lastId + 1;
    var s := Contingent.Injected(Contingent.NewId(w.s), id, TermsOf(t), Answer(w, t, base)).s;
    var f :=
      if t.otype.LimitOrder? then
        var p := LevelOf(t.limit, base);
        var r := Entering(w, t, base);
        var f1 := if r.fills == [] then r.w.f else Checked(r.w).w.f;
        var f2 := f1.(bid := Outward(f1.book, true, f1.bid), ask := Outward(f1.book, false, f1.ask));
        if r.left == 0 then f2 else LimitRested(f2, t.isBuy, p, Resting(id, r.left, false))
      else StopRested(w.f, LevelOf(t.stop, base), StopBundle(t, id));
    Whole(f.(lastId := s.lastId), s)
  }

  /** A one-cancels-other pair enters: the first order, and if that did not trade the second, for
      which the first is pulled if it trades, and with which it is linked if it does not. */
  function PairEnters(w: Whole, first: Ticket, second: Ticket, base: nat): (r: Whole)
    requires |w.f.book| > 1 && AcceptablePair(first, second, base, |w.f.book|)
    ensures |r.f.book| == |w.f.book|
  {
    var w1 := Enters(w, first, base);
    var s := Contingent.OcoEntered(w.s, TermsOf(first), TermsOf(second), false, Answer(w, first, base),
                                   Answer(w1, second, base)).s;
    var i := Contingent.Injected(Contingent.NewId(w.s), w.s.lastId + 1, TermsOf(first), Answer(w, first, base));
    if i.filled > 0 then
      Whole(w1.f, s)
    else
      var f := Enters(w1, second, base).f;
      var book := Followed(f.book, s.orders);
      var f1 := if w.s.lastId + 1 in s.orders then f.(book := book) else Shut(f, book, w.s.lastId + 1);
      Whole(f1.(bid := Outward(book, true, f.bid), ask := Outward(book, false, f.ask)), s)
  }

  /** The second order of a pair entered and the first was touched, too: what the linked orders say
      of the answers that this book gives. */
  ghost predicate Spoilt(w: Whole, first: Ticket, second: Ticket, base: nat)
    requires |w.f.book| > 1 && AcceptablePair(first, second, base, |w.f.book|)
  {
    Contingent.Spoils(w.s, TermsOf(first), TermsOf(second), Answer(w, first, base),
                      Answer(Enters(w, first, base), second, base))
  }

  /** The levels that the check for stops sweeps, once an order has traded as r says. */
  predicate Takes(r: Walked, q: nat) {
    || r.w.f.lowBuyStop <= q <= r.w.f.last
    || r.w.f.last <= q <= Up(r.w, r.w.f.lowBuyStop, r.w.f.last).w.f.highSellStop
  }

  /** The first order is a stop and the second a limit order that trades on entry, so far that the
      check for stops takes out the level of the first. */
  predicate Spoils(w: Whole, first: Ticket, second: Ticket, base: nat)
    requires |w.f.book| > 1 && AcceptablePair(first, second, base, |w.f.book|)
  {
    && StopTicket(first) && second.otype.LimitOrder?
    && Looked(w.f, !second.isBuy, LevelOf(second.limit, base), second.sz) < second.sz
    && Takes(Entering(Enters(w, first, base), second, base), LevelOf(first.stop, base))
  }

  /* ---- both accounts ---- */

  predicate Matches(s: Linked.State, b: Bundle, stop: bool) {
    b.id in s.orders && s.orders[b.id].stop == stop && s.orders[b.id].sz == b.sz
  }

  /** Every order in the book is known to the linked orders as what it is; whatever it is linked to. */
  ghost predicate Agreed(w: Whole) {
    && (forall p, b :: 0 <= p < |w.f.book| && b in w.f.book[p].limits ==>
          b.Resting? && !b.aon && Matches(w.s, b, false))
    && (forall p, b :: 0 <= p < |w.f.book| && b in w.f.book[p].stops ==> b.Stop? && Matches(w.s, b, true))
  }

  ghost predicate Fine(w: Whole) {
    Linked.Inv(w.s, 0, 0) && Agreed(w)
  }

  /** Of the orders in s' none is new, and none turned from a stop into a limit order or back. */
  ghost predicate Fewer(s: Linked.State, s': Linked.State) {
    forall x :: x in s'.orders ==> x in s.orders && s'.orders[x].stop == s.orders[x].stop
  }

  lemma HandledFewer(s: Linked.State, id: nat, amount: nat)
    requires Linked.CanHit(s, id, amount)
    ensures Fewer(s, Linked.Handled(Linked.Traded(s, id, amount), id, amount))
  {
  }

  lemma HitFewer(s: Linked.State, id: nat, amount: nat)
    requires Linked.CanHit(s, id, amount)
    ensures Fewer(s, Linked.Hit(s, id, amount))
  {
    HandledFewer(s, id, amount);
    hide Linked.Handled, Linked.Traded;
  }

  lemma TriggeredFewer(s: Linked.State, id: nat, market: bool)
    requires Linked.CanTrigger(s, id)
    ensures Fewer(s, Linked.Triggered(s, id, market))
  {
  }

  /** Who is live in a chain was there before, and has the size it has now. */
  lemma {:induction false} LiveWas(c: seq<Bundle>, orders: map<nat, Linked.Order>, b: Bundle)
    requires b in Live(c, orders)
    ensures b.id in orders && b.sz == orders[b.id].sz && exists x :: x in c && x.id == b.id && b == Resized(x, b.sz)
  {
    if c != [] {
      if b in Live(c[1..], orders) {
        LiveWas(c[1..], orders, b);
        var x :| x in c[1..] && x.id == b.id && b == Resized(x, b.sz);
        assert x in c;
      } else {
        assert c[0] in c && b == Resized(c[0], orders[c[0].id].sz);
      }
    }
  }

  lemma {:induction false} LiveIs(c: seq<Bundle>, orders: map<nat, Linked.Order>, x: Bundle)
    requires x in c && x.id in orders
    ensures Resized(x, orders[x.id].sz) in Live(c, orders)
  {
    if x != c[0] {
      LiveIs(c[1..], orders, x);
    }
  }

  lemma FollowedAgrees(w: Whole, s: Linked.State)
    requires Agreed(w) && Fewer(w.s, s)
    ensures Agreed(Whole(w.f.(book := Followed(w.f.book, s.orders)), s))
  {
    var book := Followed(w.f.book, s.orders);
    forall p, b | 0 <= p < |book| && b in book[p].limits ensures b.Resting? && !b.aon && Matches(s, b, false) {
      LiveWas(w.f.book[p].limits, s.orders, b);
    }
    forall p, b | 0 <= p < |book| && b in book[p].stops ensures b.Stop? && Matches(s, b, true) {
      LiveWas(w.f.book[p].stops, s.orders, b);
      var x :| x in w.f.book[p].stops && x.id == b.id && b == Resized(x, b.sz);
      assert x.Stop?;
    }
  }

  lemma SameAgreed(w: Whole, w': Whole)
    requires Agreed(w) && w'.f.book == w.f.book && w'.s.orders == w.s.orders
    ensures Agreed(w')
  {
  }

  /* ---- an order that nothing is linked to ---- */

  /** x rests as a stop at level q and nowhere else, linked to nothing, untouched. */
  ghost predicate Standing(w: Whole, x: nat, q: nat) {
    && q < |w.f.book| && x in w.s.orders && w.s.orders[x].cond.Free? && w.s.orders[x].stop && x !in w.s.touched
    && Holds(w.f.book[q].stops, x)
    && forall r :: 0 <= r < |w.f.book| && Holds(w.f.book[r].stops, x) ==> r == q
  }

  lemma LiveHolds(c: seq<Bundle>, orders: map<nat, Linked.Order>, x: nat)
    ensures Holds(Live(c, orders), x) <==> Holds(c, x) && x in orders
  {
    if Holds(Live(c, orders), x) {
      var b :| b in Live(c, orders) && b.id == x;
      LiveWas(c, orders, b);
    }
    if Holds(c, x) && x in orders {
      var b :| b in c && b.id == x;
      LiveIs(c, orders, b);
    }
  }

  /** While other orders are touched it stands. */
  lemma StandsOn(w: Whole, s: Linked.State, f: Floor, x: nat, q: nat)
    requires Standing(w, x, q) && Routing.Onward(w.s, s) && x !in s.touched && f.book == Followed(w.f.book, s.orders)
    ensures Standing(Whole(f, s), x, q)
  {
    hide Holds;
    forall r | 0 <= r < |f.book| ensures Holds(f.book[r].stops, x) <==> Holds(w.f.book[r].stops, x) {
      LiveHolds(w.f.book[r].stops, s.orders, x);
    }
  }

  lemma StrikeFine(w: Whole, id: nat, amount: nat)
    requires Fine(w) && Linked.CanHit(w.s, id, amount)
    ensures var r := Strike(w, id, amount);
      && Fine(r) && Routing.Onward(w.s, r.s) && r.s == Linked.Hit(w.s, id, amount)
      && r.s.touched == w.s.touched + {id} && r.f.book == Followed(w.f.book, r.s.orders)
  {
    hide Linked.Inv, Linked.Hit, Agreed, Fewer, Linked.Potential, Routing.Onward, Shut, Routing.Linkage,
      Routing.Pairage;
    var s := Linked.Hit(w.s, id, amount);
    Linked.HitOk(w.s, id, amount, 0, 0);
    Routing.Linkages(w.s, id, 0, 0);
    Routing.HitOnward(w.s, id, amount);
    HitFewer(w.s, id, amount);
    HitTouches(w.s, id, amount);
    FollowedAgrees(w, s);
    SameAgreed(Whole(w.f.(book := Followed(w.f.book, s.orders)), s), Strike(w, id, amount));
  }

  lemma HitTouches(s: Linked.State, id: nat, amount: nat)
    requires Linked.CanHit(s, id, amount)
    ensures Linked.Hit(s, id, amount).touched == s.touched + {id}
  {
    HandledTouches(s, id, amount);
    hide Linked.Handled;
  }

  lemma HandledTouches(s: Linked.State, id: nat, amount: nat)
    requires Linked.CanHit(s, id, amount)
    ensures Linked.Handled(Linked.Traded(s, id, amount), id, amount).touched == s.touched + {id}
  {
    Linked.HandledFrame(Linked.Traded(s, id, amount), id, amount);
    hide Linked.Handled;
  }

  lemma TriggerTouches(s: Linked.State, id: nat, market: bool)
    requires Linked.CanTrigger(s, id)
    ensures Linked.Triggered(s, id, market).touched == s.touched + {id}
  {
  }

  /** A walk keeps both accounts in agreement, does what it says to the linked orders, touches
      only those who trade, and leaves a stop that is linked to nothing alone. */
  ghost predicate Kept(w: Whole, r: Walked, x: nat, q: nat) {
    && Fine(r.w) && Routing.Onward(w.s, r.w.s)
    && (Standing(w, x, q) ==> Standing(r.w, x, q))
  }

  lemma KeptTrans(w: Whole, h: Walked, r: Walked, t: Walked, x: nat, q: nat)
    requires Kept(w, h, x, q) && Kept(h.w, r, x, q) && t.w == r.w
    ensures Kept(w, t, x, q)
  {
    Routing.OnwardTrans(w.s, h.w.s, r.w.s);
    hide Routing.Onward, Standing, Fine;
  }

  lemma {:induction false} StrikeChainKept(w: Whole, p: nat, size: nat, x: nat, q: nat)
    requires Fine(w) && p < |w.f.book|
    ensures Kept(w, StrikeChain(w, p, size), x, q)
    decreases size
  {
    hide Kept, Fine, Strike, Linked.CanHit;
    KeptSelf(w, Walked(w, [], size), x, q);
    var c := w.f.book[p].limits;
    if size != 0 && c != [] && Linked.CanHit(w.s, c[0].id, Min(size, c[0].sz)) {
      var amount := Min(size, c[0].sz);
      HitsSome(w.s, c[0].id, amount);
      var w1 := Strike(w, c[0].id, amount);
      StrikeKept(w, c[0].id, amount, size - amount, x, q);
      KeptFine(w, Walked(w1, [], size - amount), x, q);
      StrikeChainKept(w1, p, size - amount, x, q);
      KeptTrans(w, Walked(w1, [], size - amount), StrikeChain(w1, p, size - amount), StrikeChain(w, p, size), x, q);
    }
  }

  lemma KeptSelf(w: Whole, r: Walked, x: nat, q: nat)
    requires Fine(w) && r.w == w
    ensures Kept(w, r, x, q)
  {
    hide Fine, Standing;
    Routing.OnwardSelf(w.s);
  }

  lemma KeptFine(w: Whole, r: Walked, x: nat, q: nat)
    requires Kept(w, r, x, q)
    ensures Fine(r.w)
  {
  }

  lemma StrikeKept(w: Whole, id: nat, amount: nat, left: nat, x: nat, q: nat)
    requires Fine(w) && Linked.CanHit(w.s, id, amount)
    ensures Kept(w, Walked(Strike(w, id, amount), [], left), x, q)
  {
    hide Fine, Linked.Hit, Strike, Routing.Onward, Standing, Linked.CanHit;
    var w1 := Strike(w, id, amount);
    StrikeFine(w, id, amount);
    if Standing(w, x, q) {
      StopNotHit(w, x, q, id, amount);
      StandsOn(w, w1.s, w1.f, x, q);
    }
  }

  lemma StopNotHit(w: Whole, x: nat, q: nat, id: nat, amount: nat)
    requires Standing(w, x, q) && Linked.CanHit(w.s, id, amount)
    ensures x != id && x !in w.s.touched + {id}
  {
  }

  lemma {:induction false} WalkKept(w: Whole, bids: bool, inside: nat, p: nat, limit: nat, size: nat, x: nat, q: nat)
    requires Fine(w) && OnBook(|w.f.book|, bids, p, limit)
    ensures Kept(w, Walk(w, bids, inside, p, limit, size), x, q)
    decreases if bids then p else |w.f.book| - p
  {
    hide Fine, Routing.Onward, Standing, StrikeChain;
    Routing.OnwardSelf(w.s);
    if size != 0 && InsideOf(bids, p, limit) {
      var h := if OnSide(bids, p, inside) then StrikeChain(w, p, size) else Walked(w, [], size);
      if OnSide(bids, p, inside) {
        StrikeChainKept(w, p, size, x, q);
      }
      WalkKept(h.w, bids, inside, Next(bids, p), limit, h.left, x, q);
      KeptTrans(w, h, Walk(h.w, bids, inside, Next(bids, p), limit, h.left), Walk(w, bids, inside, p, limit, size), x,
        q);
    }
  }

  /* ---- a walk is what the engine answers ---- */

  lemma HitsAppend(f: Fill, fills: seq<Fill>, more: seq<(nat, nat)>)
    ensures var hs := Hits([f] + fills) + more;
      hs != [] && hs[0] == (f.maker, f.size) && hs[1..] == Hits(fills) + more
  {
    assert Hits([f] + fills) == [(f.maker, f.size)] + Hits(fills);
  }

  lemma {:induction false} StrikeChainRouted(w: Whole, p: nat, size: nat, more: seq<(nat, nat)>)
    requires p < |w.f.book|
    ensures var r := StrikeChain(w, p, size);
      var t := Routing.RoutedHits(r.w.s, r.left, more);
      Routing.RoutedHits(w.s, size, Hits(r.fills) + more) == (t.0, size - r.left + t.1)
    decreases size
  {
    hide Linked.Hit, Routing.RoutedHits, Strike, Linked.CanHit;
    var c := w.f.book[p].limits;
    var r := StrikeChain(w, p, size);
    if size == 0 || c == [] || !Linked.CanHit(w.s, c[0].id, Min(size, c[0].sz)) {
      assert Hits([]) + more == more;
    } else {
      var amount := Min(size, c[0].sz);
      StrikeIs(w, c[0].id, amount);
      var w1 := Strike(w, c[0].id, amount);
      var r1 := StrikeChain(w1, p, size - amount);
      HitsAppend(Fill(p, c[0].id, amount), r1.fills, more);
      StrikeChainRouted(w1, p, size - amount, more);
      RoutedHead(w.s, size, c[0].id, amount, Hits(r1.fills) + more, Hits(r.fills) + more);
    }
  }

  lemma StrikeIs(w: Whole, id: nat, amount: nat)
    requires Linked.CanHit(w.s, id, amount)
    ensures Strike(w, id, amount).s == Linked.Hit(w.s, id, amount) && amount > 0
  {
  }

  lemma RoutedHead(s: Linked.State, left: nat, id: nat, amount: nat, tail: seq<(nat, nat)>, hs: seq<(nat, nat)>)
    requires Linked.CanHit(s, id, amount) && amount <= left && hs != [] && hs[0] == (id, amount) && hs[1..] == tail
    ensures var r := Routing.RoutedHits(Linked.Hit(s, id, amount), left - amount, tail);
      Routing.RoutedHits(s, left, hs) == (r.0, amount + r.1)
  {
    hide Linked.Hit;
  }

  lemma {:induction false} WalkRouted(w: Whole, bids: bool, inside: nat, p: nat, limit: nat, size: nat,
          more: seq<(nat, nat)>)
    requires OnBook(|w.f.book|, bids, p, limit)
    ensures var r := Walk(w, bids, inside, p, limit, size);
      var t := Routing.RoutedHits(r.w.s, r.left, more);
      Routing.RoutedHits(w.s, size, Hits(r.fills) + more) == (t.0, size - r.left + t.1)
    decreases if bids then p else |w.f.book| - p
  {
    hide Routing.RoutedHits, StrikeChain;
    var r := Walk(w, bids, inside, p, limit, size);
    if size == 0 || !InsideOf(bids, p, limit) {
      assert Hits([]) + more == more;
    } else {
      var h := if OnSide(bids, p, inside) then StrikeChain(w, p, size) else Walked(w, [], size);
      var r1 := Walk(h.w, bids, inside, Next(bids, p), limit, h.left);
      WalkRouted(h.w, bids, inside, Next(bids, p), limit, h.left, more);
      assert Hits(r.fills) + more == Hits(h.fills) + (Hits(r1.fills) + more) by {
        assert Hits(h.fills + r1.fills) == Hits(h.fills) + Hits(r1.fills);
      }
      if OnSide(bids, p, inside) {
        StrikeChainRouted(w, p, size, Hits(r1.fills) + more);
      } else {
        assert Hits([]) + (Hits(r1.fills) + more) == Hits(r1.fills) + more;
      }
    }
  }

  lemma TriggersAppend(b: Bundle, bs: seq<Bundle>, more: seq<(nat, bool)>)
    ensures var ts := Triggers([b] + bs) + more;
      ts != [] && ts[0] == (b.id, b.Stop? && b.limit == 0) && ts[1..] == Triggers(bs) + more
  {
    assert Triggers([b] + bs) == [(b.id, b.Stop? && b.limit == 0)] + Triggers(bs);
  }

  lemma {:induction false} SpringAllRouted(w: Whole, c: seq<Bundle>, more: seq<(nat, bool)>)
    ensures Routing.RoutedTriggers(w.s, Triggers(c) + more) == Routing.RoutedTriggers(SpringAll(w, c).s, more)
    decreases |c|
  {
    hide Linked.Triggered;
    if c == [] {
      assert Triggers([]) + more == more;
    } else {
      assert c == [c[0]] + c[1..];
      TriggersAppend(c[0], c[1..], more);
      SpringAllRouted(Spring(w, c[0]), c[1..], more);
    }
  }

  lemma {:induction false} UpRouted(w: Whole, p: nat, last: nat, more: seq<(nat, bool)>)
    ensures var r := Up(w, p, last);
      Routing.RoutedTriggers(w.s, Triggers(r.taken) + more) == Routing.RoutedTriggers(r.w.s, more)
    decreases last + 1 - p
  {
    hide Routing.RoutedTriggers, Spring, SpringAll, Freed;
    if p > last || p >= |w.f.book| {
      assert Triggers([]) + more == more;
    } else {
      var w1 := TakeLevel(w, true, p);
      var r := Up(w1, p + 1, last);
      UpRouted(w1, p + 1, last, more);
      SpringAllRouted(w.(f := Freed(w.f, true, p)), w.f.book[p].stops, Triggers(r.taken) + more);
      assert Triggers(w.f.book[p].stops + r.taken) + more == Triggers(w.f.book[p].stops) + (Triggers(r.taken) + more);
    }
  }

  lemma {:induction false} DownRouted(w: Whole, p: nat, last: nat, more: seq<(nat, bool)>)
    ensures var r := Down(w, p, last);
      Routing.RoutedTriggers(w.s, Triggers(r.taken) + more) == Routing.RoutedTriggers(r.w.s, more)
    decreases p
  {
    hide Routing.RoutedTriggers, Spring, SpringAll, Freed;
    if p < last || p == 0 || p >= |w.f.book| {
      assert Triggers([]) + more == more;
    } else {
      var w1 := TakeLevel(w, false, p);
      var r := Down(w1, p - 1, last);
      DownRouted(w1, p - 1, last, more);
      SpringAllRouted(w.(f := Freed(w.f, false, p)), w.f.book[p].stops, Triggers(r.taken) + more);
      assert Triggers(w.f.book[p].stops + r.taken) + more == Triggers(w.f.book[p].stops) + (Triggers(r.taken) + more);
    }
  }

  lemma CheckedRouted(w: Whole)
    ensures Routing.RoutedTriggers(w.s, Triggers(Checked(w).taken)) == Checked(w).w.s
  {
    hide Routing.RoutedTriggers, Up, Down;
    var u := Up(w, w.f.lowBuyStop, w.f.last);
    var d := Down(u.w, u.w.f.highSellStop, w.f.last);
    UpRouted(w, w.f.lowBuyStop, w.f.last, Triggers(d.taken) + []);
    DownRouted(u.w, u.w.f.highSellStop, w.f.last, []);
    assert Triggers(u.taken + d.taken) == Triggers(u.taken) + (Triggers(d.taken) + []);
    NoMore(d.w.s);
  }

  lemma NoMore(s: Linked.State)
    ensures Routing.RoutedTriggers(s, []) == s && forall left: nat :: Routing.RoutedHits(s, left, []) == (s, 0)
  {
  }

  /** Matching the book and matching by its answer come to the same. */
  lemma EnteringRouted(w: Whole, t: Ticket, base: nat)
    requires |w.f.book| > 1 && Acceptable(t, base, |w.f.book|) && t.otype.LimitOrder?
    ensures var r := Entering(w, t, base);
      Routing.Routed(Contingent.NewId(w.s), t.sz, Answer(w, t, base)) ==
        (if r.left < t.sz then Checked(r.w).w.s else r.w.s, t.sz - r.left)
    ensures var r := Entering(w, t, base); r.fills == [] <==> r.left == t.sz
  {
    hide Routing.RoutedHits, Routing.RoutedTriggers, Walk, Checked;
    var n := Numbered(w);
    var bids := !t.isBuy;
    var p := LevelOf(t.limit, base);
    var r := Walk(n, bids, InsideLevel(n.f, bids), Outermost(bids, |n.f.book|), p, t.sz);
    WalkRouted(n, bids, InsideLevel(n.f, bids), Outermost(bids, |n.f.book|), p, t.sz, []);
    assert Hits(r.fills) + [] == Hits(r.fills);
    NoMore(r.w.s);
    WalkTrades(n, bids, InsideLevel(n.f, bids), Outermost(bids, |n.f.book|), p, t.sz);
    CheckedRouted(Entering(w, t, base).w);
  }

  lemma {:induction false} StrikeChainTrades(w: Whole, p: nat, size: nat)
    requires p < |w.f.book|
    ensures var r := StrikeChain(w, p, size); r.fills == [] <==> r.left == size
    decreases size
  {
    var c := w.f.book[p].limits;
    if size != 0 && c != [] && Linked.CanHit(w.s, c[0].id, Min(size, c[0].sz)) {
      hide Strike;
      StrikeChainTrades(Strike(w, c[0].id, Min(size, c[0].sz)), p, size - Min(size, c[0].sz));
    }
  }

  lemma {:induction false} WalkTrades(w: Whole, bids: bool, inside: nat, p: nat, limit: nat, size: nat)
    requires OnBook(|w.f.book|, bids, p, limit)
    ensures var r := Walk(w, bids, inside, p, limit, size); r.fills == [] <==> r.left == size
    decreases if bids then p else |w.f.book| - p
  {
    hide StrikeChain;
    if size != 0 && InsideOf(bids, p, limit) {
      var h := if OnSide(bids, p, inside) then StrikeChain(w, p, size) else Walked(w, [], size);
      if OnSide(bids, p, inside) {
        StrikeChainTrades(w, p, size);
      }
      WalkTrades(h.w, bids, inside, Next(bids, p), limit, h.left);
    }
  }

  /* ---- stops that are swept ---- */

  lemma SpringFine(w: Whole, b: Bundle)
    requires Fine(w)
    ensures var r := Spring(w, b);
      && Fine(r) && Routing.Onward(w.s, r.s)
      && r.s.touched == w.s.touched + (if Linked.CanTrigger(w.s, b.id) then {b.id} else {})
      && (Linked.CanTrigger(w.s, b.id) ==> r.f.book == Followed(w.f.book, r.s.orders))
  {
    hide Linked.Inv, Linked.Triggered, Agreed, Fewer, Linked.Potential, Routing.Onward, Shut, Routing.Linkage,
      Routing.Pairage;
    Routing.OnwardSelf(w.s);
    if Linked.CanTrigger(w.s, b.id) {
      var market := b.Stop? && b.limit == 0;
      var s := Linked.Triggered(w.s, b.id, market);
      Linked.TriggeredOk(w.s, b.id, market, 0, 0);
      Routing.Linkages(w.s, b.id, 0, 0);
      Routing.TriggeredOnward(w.s, b.id, market);
      TriggeredFewer(w.s, b.id, market);
      TriggerTouches(w.s, b.id, market);
      FollowedAgrees(w, s);
      SameAgreed(Whole(w.f.(book := Followed(w.f.book, s.orders)), s), Spring(w, b));
    }
  }

  /** What a triggered stop is queued as has the terms of the order that the book makes of it: its size, and a
      limit order if it has a limit, else a market order. What it is linked to is queued after it. */
  lemma SpringTerms(w: Whole, p: nat, b: Bundle)
    requires Agreed(w) && p < |w.f.book| && b in w.f.book[p].stops
    ensures var s, r := w.s, Spring(w, b).s;
      && |s.queue| < |r.queue| && r.queue[..|s.queue|] == s.queue
      && r.queue[|s.queue|] == Linked.Basic(s.lastId + 1, TermsOf(Triggered(b, s.lastId + 1)))
      && r.queue[|s.queue|].terms == Linked.Terms(if b.limit > 0 then Linked.Limit else Linked.Market, b.sz)
  {
    hide Shut, Followed, Live, Linked.Close;
    assert b.Stop? && Matches(w.s, b, true);
  }

  /** x is linked to nothing and not in the book any more, but not triggered yet. */
  ghost predicate Pending(s: Linked.State, x: nat) {
    x in s.orders && s.orders[x].cond.Free? && s.orders[x].stop && x !in s.touched
  }

  lemma PendingOn(s: Linked.State, s': Linked.State, x: nat)
    requires Pending(s, x) && Routing.Onward(s, s') && x !in s'.touched
    ensures Pending(s', x)
  {
  }

  /** The stops of a chain are triggered: x, if it is among them, is touched then; if it is not, it
      stands as before. */
  lemma {:induction false} SpringAllSprings(w: Whole, c: seq<Bundle>, x: nat, q: nat)
    requires Fine(w)
    ensures var r := SpringAll(w, c);
      && Fine(r) && Routing.Onward(w.s, r.s)
      && (Pending(w.s, x) && Holds(c, x) ==> x in r.s.touched)
      && (Standing(w, x, q) && !Holds(c, x) ==> Standing(r, x, q))
    decreases |c|
  {
    hide Fine, Spring, Routing.Onward, Standing, Pending;
    Routing.OnwardSelf(w.s);
    if c != [] {
      var w1 := Spring(w, c[0]);
      SpringFine(w, c[0]);
      SpringAllSprings(w1, c[1..], x, q);
      Routing.OnwardTrans(w.s, w1.s, SpringAll(w1, c[1..]).s);
      if Pending(w.s, x) && Holds(c, x) {
        if c[0].id == x {
          PendingTriggers(w.s, x);
          TouchedOn(w1.s, SpringAll(w1, c[1..]).s, x);
        } else {
          HoldsRest(c, x);
          PendingOn(w.s, w1.s, x) by {
            PendingUntouched(w.s, x);
          }
        }
      }
      if Standing(w, x, q) && !Holds(c, x) {
        assert c[0] in c && forall b :: b in c[1..] ==> b in c;
        StandingFacts(w, x, q);
        if Linked.CanTrigger(w.s, c[0].id) {
          StandsOn(w, w1.s, w1.f, x, q);
        } else {
          SpringNot(w, c[0]);
        }
      }
    }
  }

  lemma SpringNot(w: Whole, b: Bundle)
    requires !Linked.CanTrigger(w.s, b.id)
    ensures Spring(w, b) == w
  {
  }

  lemma StandingFacts(w: Whole, x: nat, q: nat)
    requires Standing(w, x, q)
    ensures x !in w.s.touched && Pending(w.s, x) && q < |w.f.book| && Holds(w.f.book[q].stops, x)
    ensures forall r :: 0 <= r < |w.f.book| && Holds(w.f.book[r].stops, x) ==> r == q
  {
  }

  lemma PendingTriggers(s: Linked.State, x: nat)
    requires Pending(s, x)
    ensures Linked.CanTrigger(s, x)
  {
  }

  lemma PendingUntouched(s: Linked.State, x: nat)
    requires Pending(s, x)
    ensures x !in s.touched
  {
  }

  lemma TouchedOn(s: Linked.State, s': Linked.State, x: nat)
    requires Routing.Onward(s, s') && x in s.touched
    ensures x in s'.touched
  {
  }

  lemma HoldsRest(c: seq<Bundle>, x: nat)
    requires Holds(c, x) && c[0].id != x
    ensures Holds(c[1..], x)
  {
    var b :| b in c && b.id == x;
    assert b in c[1..];
  }

  lemma FreedFine(w: Whole, buys: bool, p: nat)
    requires Fine(w) && p < |w.f.book|
    ensures Fine(w.(f := Freed(w.f, buys, p)))
  {
    hide Linked.Inv;
  }

  lemma FreedStands(w: Whole, buys: bool, p: nat, x: nat, q: nat)
    requires Standing(w, x, q) && p < |w.f.book| && p != q
    ensures Standing(w.(f := Freed(w.f, buys, p)), x, q) && !Holds(w.f.book[p].stops, x)
  {
    hide Holds;
    assert Freed(w.f, buys, p).book[p].stops == [];
    assert !Holds([], x) by {
      NoneHeld(x);
    }
  }

  lemma NoneHeld(x: nat)
    ensures !Holds([], x)
  {
  }

  lemma LevelSprings(w: Whole, buys: bool, p: nat, x: nat, q: nat)
    requires Fine(w) && p < |w.f.book|
    ensures var r := TakeLevel(w, buys, p);
      && Fine(r) && Routing.Onward(w.s, r.s)
      && (Standing(w, x, q) ==> if p == q then x in r.s.touched else Standing(r, x, q))
  {
    hide Fine, SpringAll, Routing.Onward, Standing, Pending, Freed;
    var w1 := w.(f := Freed(w.f, buys, p));
    FreedFine(w, buys, p);
    SpringAllSprings(w1, w.f.book[p].stops, x, q);
    if Standing(w, x, q) {
      StandingFacts(w, x, q);
      if p != q {
        FreedStands(w, buys, p, x, q);
      }
    }
  }

  lemma {:induction false} UpSprings(w: Whole, p: nat, last: nat, x: nat, q: nat)
    requires Fine(w)
    ensures var r := Up(w, p, last).w;
      && Fine(r) && Routing.Onward(w.s, r.s)
      && (Standing(w, x, q) ==> if p <= q <= last then x in r.s.touched else Standing(r, x, q))
    decreases last + 1 - p
  {
    hide Fine, TakeLevel, Routing.Onward, Standing;
    Routing.OnwardSelf(w.s);
    if Standing(w, x, q) {
      StandingFacts(w, x, q);
    }
    if p <= last && p < |w.f.book| {
      var w1 := TakeLevel(w, true, p);
      LevelSprings(w, true, p, x, q);
      UpSprings(w1, p + 1, last, x, q);
      Routing.OnwardTrans(w.s, w1.s, Up(w1, p + 1, last).w.s);
      if Standing(w, x, q) && p == q {
        TouchedOn(w1.s, Up(w1, p + 1, last).w.s, x);
      }
    }
  }

  lemma {:induction false} DownSprings(w: Whole, p: nat, last: nat, x: nat, q: nat)
    requires Fine(w) && last > 0 && p < |w.f.book|
    ensures var r := Down(w, p, last).w;
      && Fine(r) && Routing.Onward(w.s, r.s)
      && (Standing(w, x, q) ==> if last <= q <= p then x in r.s.touched else Standing(r, x, q))
    decreases p
  {
    hide Fine, TakeLevel, Routing.Onward, Standing;
    Routing.OnwardSelf(w.s);
    if p >= last {
      var w1 := TakeLevel(w, false, p);
      LevelSprings(w, false, p, x, q);
      DownSprings(w1, p - 1, last, x, q);
      Routing.OnwardTrans(w.s, w1.s, Down(w1, p - 1, last).w.s);
      if Standing(w, x, q) && p == q {
        TouchedOn(w1.s, Down(w1, p - 1, last).w.s, x);
      }
    }
  }

  /** The check for stops touches a stop that is linked to nothing exactly when its level is swept. */
  lemma CheckedSprings(r: Walked, x: nat, q: nat)
    requires Fine(r.w) && Standing(r.w, x, q) && 0 < r.w.f.last
    requires Up(r.w, r.w.f.lowBuyStop, r.w.f.last).w.f.highSellStop < |r.w.f.book|
    ensures x in Checked(r.w).w.s.touched <==> Takes(r, q)
  {
    hide Fine, Up, Down, Routing.Onward, Standing;
    var low, last := r.w.f.lowBuyStop, r.w.f.last;
    var u := Up(r.w, low, last).w;
    UpSprings(r.w, low, last, x, q);
    DownSprings(u, u.f.highSellStop, last, x, q);
    var d := Down(u, u.f.highSellStop, last).w;
    if low <= q <= last {
      TouchedOn(u.s, d.s, x);
    } else if !(last <= q <= u.f.highSellStop) {
      StandingFacts(d, x, q);
    }
  }

  /* ---- who trades ---- */

  lemma StrikeHolds(w: Whole, id: nat, amount: nat, x: nat, r: nat)
    requires Linked.CanHit(w.s, id, amount) && r < |w.f.book| && Holds(Strike(w, id, amount).f.book[r].limits, x)
    ensures Holds(w.f.book[r].limits, x)
  {
    hide Holds, Linked.Hit;
    LiveHolds(w.f.book[r].limits, Linked.Hit(w.s, id, amount).orders, x);
  }

  /** f is a trade at p, and with x only if x rests there. */
  ghost predicate MakerAt(w: Whole, p: nat, x: nat, f: Fill)
    requires p < |w.f.book|
  {
    f.level == p && (f.maker == x ==> Holds(w.f.book[p].limits, x))
  }

  /** Nobody has come to rest: who is in a limit chain of w' was in that of w. */
  ghost predicate Leaving(w: Whole, w': Whole, x: nat)
    requires |w'.f.book| == |w.f.book|
  {
    forall q: nat :: q < |w.f.book| && Holds(w'.f.book[q].limits, x) ==> Holds(w.f.book[q].limits, x)
  }

  lemma MakersLeave(w: Whole, w1: Whole, p: nat, x: nat, fills: seq<Fill>)
    requires |w1.f.book| == |w.f.book| && p < |w.f.book| && Leaving(w, w1, x)
    requires forall f :: f in fills ==> MakerAt(w1, p, x, f)
    ensures forall f :: f in fills ==> MakerAt(w, p, x, f)
  {
  }

  lemma LeavesOn(w: Whole, w1: Whole, w2: Whole, x: nat)
    requires |w1.f.book| == |w.f.book| == |w2.f.book| && Leaving(w, w1, x) && Leaving(w1, w2, x)
    ensures Leaving(w, w2, x)
  {
  }

  lemma StrikeLeaves(w: Whole, id: nat, amount: nat, x: nat)
    requires Linked.CanHit(w.s, id, amount)
    ensures Leaving(w, Strike(w, id, amount), x)
  {
    forall q: nat | q < |w.f.book| && Holds(Strike(w, id, amount).f.book[q].limits, x)
      ensures Holds(w.f.book[q].limits, x) {
      StrikeHolds(w, id, amount, x, q);
    }
  }

  /** Who trades at a level rested there, and nobody comes to rest in a walk. */
  lemma {:induction false} StrikeChainMakers(w: Whole, p: nat, size: nat, x: nat)
    requires p < |w.f.book|
    ensures var r := StrikeChain(w, p, size);
      (forall f :: f in r.fills ==> MakerAt(w, p, x, f)) && Leaving(w, r.w, x)
    decreases size
  {
    hide Strike, Linked.CanHit, MakerAt, Leaving;
    var c := w.f.book[p].limits;
    LeavesSelf(w, x);
    if size != 0 && c != [] && Linked.CanHit(w.s, c[0].id, Min(size, c[0].sz)) {
      var amount := Min(size, c[0].sz);
      HitsSome(w.s, c[0].id, amount);
      var w1 := Strike(w, c[0].id, amount);
      var r := StrikeChain(w1, p, size - amount);
      StrikeChainMakers(w1, p, size - amount, x);
      StrikeLeaves(w, c[0].id, amount, x);
      MakersLeave(w, w1, p, x, r.fills);
      LeavesOn(w, w1, r.w, x);
      FrontMakes(w, p, x, amount);
    }
  }

  lemma LeavesSelf(w: Whole, x: nat)
    ensures Leaving(w, w, x)
  {
  }

  lemma HitsSome(s: Linked.State, id: nat, amount: nat)
    requires Linked.CanHit(s, id, amount)
    ensures amount > 0
  {
  }

  lemma FrontMakes(w: Whole, p: nat, x: nat, amount: nat)
    requires p < |w.f.book| && w.f.book[p].limits != []
    ensures MakerAt(w, p, x, Fill(p, w.f.book[p].limits[0].id, amount))
  {
    FrontHeld(w.f.book[p].limits);
  }

  lemma FrontHeld(c: seq<Bundle>)
    requires c != []
    ensures Holds(c, c[0].id)
  {
    assert c[0] in c;
  }

  lemma {:induction false} WalkMakers(w: Whole, bids: bool, inside: nat, p: nat, limit: nat, size: nat, x: nat)
    requires OnBook(|w.f.book|, bids, p, limit)
    ensures var r := Walk(w, bids, inside, p, limit, size);
      forall f :: f in r.fills ==>
        && 0 < f.level < |w.f.book| && InsideOf(bids, f.level, limit) && OnSide(bids, f.level, inside)
        && (f.maker == x ==> Holds(w.f.book[f.level].limits, x))
    decreases if bids then p else |w.f.book| - p
  {
    hide StrikeChain, Holds;
    if size != 0 && InsideOf(bids, p, limit) {
      var h := if OnSide(bids, p, inside) then StrikeChain(w, p, size) else Walked(w, [], size);
      if OnSide(bids, p, inside) {
        StrikeChainMakers(w, p, size, x);
      }
      WalkMakers(h.w, bids, inside, Next(bids, p), limit, h.left, x);
    }
  }

  /** Without a trade nothing changes. */
  lemma {:induction false} WalkIdle(w: Whole, bids: bool, inside: nat, p: nat, limit: nat, size: nat)
    requires OnBook(|w.f.book|, bids, p, limit) && Walk(w, bids, inside, p, limit, size).fills == []
    ensures Walk(w, bids, inside, p, limit, size) == Walked(w, [], size)
    decreases if bids then p else |w.f.book| - p
  {
    if size != 0 && InsideOf(bids, p, limit) {
      var h := if OnSide(bids, p, inside) then StrikeChain(w, p, size) else Walked(w, [], size);
      assert h.fills == [];
      WalkIdle(h.w, bids, inside, Next(bids, p), limit, h.left);
    }
  }

  /** Something trades exactly if there is something in the queue of the book: links make no
      difference to that. */
  lemma {:induction false} WalkSome(w: Whole, bids: bool, inside: nat, p: nat, limit: nat, size: nat)
    requires OnBook(|w.f.book|, bids, p, limit) && Agreed(w) && PlainBook(w.f.book) && AllSized(w.f.book) && size > 0
    ensures Walk(w, bids, inside, p, limit, size).fills == [] <==> Queue(w.f.book, bids, inside, p, limit) == []
    decreases if bids then p else |w.f.book| - p
  {
    hide AllSized, PlainBook, Agreed, StrikeChain;
    if InsideOf(bids, p, limit) {
      NoAons(w.f.book, p, bids);
      if OnSide(bids, p, inside) && w.f.book[p].limits != [] {
        StrikesFront(w, p, size);
        assert Ids(w.f.book[p].limits) != [];
      } else {
        if OnSide(bids, p, inside) {
          StrikesNone(w, p, size);
        }
        WalkSome(w, bids, inside, Next(bids, p), limit, size);
      }
    }
  }

  lemma StrikesFront(w: Whole, p: nat, size: nat)
    requires p < |w.f.book| && w.f.book[p].limits != [] && Agreed(w) && AllSized(w.f.book) && size > 0
    ensures StrikeChain(w, p, size).fills != []
  {
    var b := w.f.book[p].limits[0];
    assert b in w.f.book[p].limits;
    SizedAt(w.f.book, p, b);
    assert Matches(w.s, b, false);
    hide AllSized, Agreed, Strike;
  }

  lemma StrikesNone(w: Whole, p: nat, size: nat)
    requires p < |w.f.book| && w.f.book[p].limits == []
    ensures StrikeChain(w, p, size) == Walked(w, [], size)
  {
  }

  lemma NoAons(book: seq<Level>, p: nat, bids: bool)
    requires PlainBook(book) && p < |book|
    ensures Chain(book[p], AonKind(bids)) == []
  {
  }

  lemma SizedAt(book: seq<Level>, p: nat, b: Bundle)
    requires AllSized(book) && p < |book| && b in book[p].limits
    ensures b.sz > 0
  {
    assert Sized(Chain(book[p], Limits));
  }

  /** ... and so does a walk that knows of no links. */
  lemma MatchSome(f: Floor, bids: bool, p: nat, size: nat)
    requires 0 < p < |f.book| && PlainBook(f.book) && AllSized(f.book) && size > 0
    ensures Queue(f.book, bids, InsideLevel(f, bids), Outermost(bids, |f.book|), p) == [] <==>
      Match(f.book, bids, InsideLevel(f, bids), Outermost(bids, |f.book|), p, size).fills == []
  {
    hide Match, Queue;
    MatchPlain(f.book, bids, InsideLevel(f, bids), Outermost(bids, |f.book|), p, size);
    MatchConserves(f.book, bids, InsideLevel(f, bids), Outermost(bids, |f.book|), p, size);
  }

  /** A limit order that enters trades exactly if looking says so, whatever is linked to what. */
  lemma Trades(w: Whole, t: Ticket, base: nat)
    requires |w.f.book| > 1 && Acceptable(t, base, |w.f.book|) && t.otype.LimitOrder? && Orderly(w.f) && Agreed(w)
    ensures Entering(w, t, base).fills != [] <==> Looked(w.f, !t.isBuy, LevelOf(t.limit, base), t.sz) < t.sz
    ensures Entering(w, t, base).fills == [] <==> FillsOf(w.f, t, base) == []
    ensures Entering(w, t, base).fills == [] ==> Entering(w, t, base) == Walked(Numbered(w), [], t.sz)
  {
    hide Walk, Match, Queue, PlainBook, AllSized, IdsUpTo, Looked;
    var n := Numbered(w);
    var bids, p := !t.isBuy, LevelOf(t.limit, base);
    SameAgreed(w, n);
    WalkSome(n, bids, InsideLevel(n.f, bids), Outermost(bids, |n.f.book|), p, t.sz);
    MatchSome(w.f, bids, p, t.sz);
    SoldSome(w.f, bids, p, t.sz);
    if Entering(w, t, base).fills == [] {
      WalkIdle(n, bids, InsideLevel(n.f, bids), Outermost(bids, |n.f.book|), p, t.sz);
    }
  }

  /* ---- the first order is a stop ---- */

  /** What holds of a book without all-or-none orders and of what its orders are linked to,
      between windows. */
  ghost predicate InOrder(w: Whole) {
    Orderly(w.f) && Fine(w) && w.f.lastId == w.s.lastId
  }

  /** What a stop that enters leaves. */
  lemma StopLeaves(w: Whole, t: Ticket, base: nat)
    requires |w.f.book| > 1 && Acceptable(t, base, |w.f.book|) && StopTicket(t) && w.f.lastId == w.s.lastId
    ensures var r := Enters(w, t, base);
      && r.f == OneCancels.Enters(w.f, t, base).f
      && r.s == Contingent.Rest(Contingent.NewId(w.s), w.s.lastId + 1, Linked.Order(true, t.sz, Linked.Free))
      && r.f.lastId == r.s.lastId
  {
    hide Pushed;
  }

  lemma StopFirst(w: Whole, t: Ticket, base: nat)
    requires |w.f.book| > 1 && Acceptable(t, base, |w.f.book|) && StopTicket(t) && InOrder(w)
    ensures var r := Enters(w, t, base);
      && r.f == OneCancels.Enters(w.f, t, base).f
      && r.s == Contingent.Rest(Contingent.NewId(w.s), w.s.lastId + 1, Linked.Order(true, t.sz, Linked.Free))
      && InOrder(r) && Standing(r, w.s.lastId + 1, LevelOf(t.stop, base))
  {
    hide Orderly, Linked.Inv, Agreed, Enters, OneCancels.Enters, Contingent.After, Contingent.Fresh, Linked.Potential;
    var id := w.s.lastId + 1;
    var q := LevelOf(t.stop, base);
    StopLeaves(w, t, base);
    StopEnters(w.f, t, base);
    Contingent.NewIdOk(w.s, 0, 0);
    Contingent.InjectedOk(Contingent.NewId(w.s), id, TermsOf(t), Linked.Call([], []));
    var r := Enters(w, t, base);
    KnownIds(w.f);
    StopAgrees(w, r.s, q, StopBundle(t, id), r.f);
    NewUntouched(w.s);
    StopStands(r, id, q, StopBundle(t, id));
  }

  lemma KnownIds(f: Floor)
    requires Orderly(f)
    ensures forall r, x :: 0 <= r < |f.book| && (x in f.book[r].stops || x in f.book[r].limits) ==> x.id <= f.lastId
  {
    KnownChains(f.book, f.lastId);
  }

  lemma NewUntouched(s: Linked.State)
    requires Linked.Inv(s, 0, 0)
    ensures s.lastId + 1 !in s.touched
  {
    hide Linked.Symmetric, Linked.Exclusive, Linked.Booked, Linked.Active, Linked.Positioned;
  }

  lemma StopStands(r: Whole, id: nat, q: nat, b: Bundle)
    requires q < |r.f.book| && b in r.f.book[q].stops && b.id == id && id !in r.s.touched
    requires forall p, x :: 0 <= p < |r.f.book| && x in r.f.book[p].stops && x.id == id ==> p == q
    requires id in r.s.orders && r.s.orders[id].stop && r.s.orders[id].cond.Free?
    ensures Standing(r, id, q)
  {
  }

  lemma StopAgrees(w: Whole, s: Linked.State, q: nat, b: Bundle, g: Floor)
    requires Agreed(w) && b.Stop? && 0 < q < |w.f.book|
    requires g.book == Pushed(w.f.book, q, Stops, b)
    requires s.orders == w.s.orders[b.id := Linked.Order(true, b.sz, Linked.Free)]
    requires forall r, x :: 0 <= r < |w.f.book| && (x in w.f.book[r].stops || x in w.f.book[r].limits) ==> x.id != b.id
    ensures Agreed(Whole(g, s))
  {
    StopPushed(w.f.book, q, b);
    hide Pushed;
    forall r, x | 0 <= r < |g.book| && x in g.book[r].limits ensures x.Resting? && !x.aon && Matches(s, x, false) {
      assert x in w.f.book[r].limits;
    }
    forall r, x | 0 <= r < |g.book| && x in g.book[r].stops ensures x.Stop? && Matches(s, x, true) {
      assert x == b || x in w.f.book[r].stops;
    }
  }

  lemma StopPushed(book: seq<Level>, q: nat, b: Bundle)
    requires q < |book|
    ensures Pushed(book, q, Stops, b) == book[q := book[q].(stops := book[q].stops + [b])]
  {
  }

  /** What entering a limit order leaves of who is touched. */
  lemma InjectedTouches(s: Linked.State, id: nat, terms: Linked.Terms, call: Linked.Call, x: nat)
    requires terms.kind.Limit? && x != id
    ensures var r := Routing.Routed(s, terms.sz, call);
      var i := Contingent.Injected(s, id, terms, call);
      i.filled == r.1 && (x in i.s.touched <==> x in r.0.touched)
  {
    hide Routing.Routed;
  }

  lemma SpoiltIs(w: Whole, first: Ticket, second: Ticket, base: nat)
    requires |w.f.book| > 1 && AcceptablePair(first, second, base, |w.f.book|) && second.otype.LimitOrder?
    requires var id := w.s.lastId + 1;
      Contingent.Injected(Contingent.NewId(w.s), id, TermsOf(first), Answer(w, first, base)).filled == 0
    requires Enters(w, first, base).s.lastId >= w.s.lastId + 1
    ensures var w1 := Enters(w, first, base);
      var r := Routing.Routed(Contingent.NewId(w1.s), second.sz, Answer(w1, second, base));
      Spoilt(w, first, second, base) <==> r.1 > 0 && w.s.lastId + 1 in r.0.touched
  {
    hide Answer, Contingent.Injected, Routing.Routed, Acceptable, Enters;
    var w1 := Enters(w, first, base);
    EntersIs(w, first, base);
    InjectedTouches(Contingent.NewId(w1.s), w1.s.lastId + 1, TermsOf(second), Answer(w1, second, base), w.s.lastId + 1);
  }

  lemma EntersIs(w: Whole, t: Ticket, base: nat)
    requires |w.f.book| > 1 && Acceptable(t, base, |w.f.book|) && !t.otype.Market?
    ensures Enters(w, t, base).s ==
      Contingent.Injected(Contingent.NewId(w.s), w.s.lastId + 1, TermsOf(t), Answer(w, t, base)).s
  {
    hide Answer, Contingent.Injected, Entering, Checked;
  }

  /** A stop that is linked to nothing is triggered by a limit order that enters exactly when it
      trades and its walk ends so far that the level of the stop is swept. */
  lemma EnteringSprings(w: Whole, t: Ticket, base: nat, x: nat, q: nat)
    requires |w.f.book| > 1 && Acceptable(t, base, |w.f.book|) && t.otype.LimitOrder? && InOrder(w) && Standing(w, x, q)
    ensures var r := Routing.Routed(Contingent.NewId(w.s), t.sz, Answer(w, t, base));
      r.1 > 0 && x in r.0.touched <==>
        Looked(w.f, !t.isBuy, LevelOf(t.limit, base), t.sz) < t.sz && Takes(Entering(w, t, base), q)
  {
    hide Fine, Standing, Walk, Checked, Looked, Routing.Routed, Answer, Routing.Onward, Takes, PlainBook, AllSized,
      IdsUpTo;
    var n := Numbered(w);
    var bids, p := !t.isBuy, LevelOf(t.limit, base);
    EnteringRouted(w, t, base);
    FineAgreed(w);
    Trades(w, t, base);
    NumberedFine(w, x, q);
    var inside := InsideLevel(n.f, bids);
    WalkKept(n, bids, inside, Outermost(bids, |n.f.book|), p, t.sz, x, q);
    WalkMakers(n, bids, inside, Outermost(bids, |n.f.book|), p, t.sz, x);
    var r0 := Walk(n, bids, inside, Outermost(bids, |n.f.book|), p, t.sz);
    var r := Entering(w, t, base);
    if r.fills != [] {
      assert r.fills[|r.fills| - 1] in r0.fills;
      LastMoved(r0.w, r.w, x, q);
      CheckedSprings(r, x, q);
    }
  }

  lemma FineAgreed(w: Whole)
    requires Fine(w)
    ensures Agreed(w) && Linked.Inv(w.s, 0, 0)
  {
  }

  lemma NumberedFine(w: Whole, x: nat, q: nat)
    requires Fine(w)
    ensures Fine(Numbered(w)) && (Standing(w, x, q) ==> Standing(Numbered(w), x, q))
  {
    hide Linked.Inv, Agreed, Contingent.Fresh, Holds;
    Contingent.NewIdOk(w.s, 0, 0);
    SameAgreed(w, Numbered(w));
  }

  lemma LastMoved(w: Whole, w': Whole, x: nat, q: nat)
    requires Fine(w) && Standing(w, x, q) && w' == w.(f := w.f.(last := w'.f.last))
    ensures Fine(w') && Standing(w', x, q)
  {
    hide Linked.Inv, Agreed, Holds;
    FineAgreed(w);
    SameAgreed(w, w');
  }

  lemma StopThenLimit(w: Whole, first: Ticket, second: Ticket, base: nat)
    requires |w.f.book| > 1 && AcceptablePair(first, second, base, |w.f.book|) && InOrder(w)
    requires StopTicket(first) && second.otype.LimitOrder?
    ensures Spoilt(w, first, second, base) <==> Spoils(w, first, second, base)
  {
    hide InOrder, Standing, Spoilt, Answer, Looked, Entering, Takes, Enters, OneCancels.Enters, Routing.Routed,
      PlainBook, Orderly, Snug;
    var w1 := Enters(w, first, base);
    StopFirst(w, first, base);
    StopUnfilled(w, first, base);
    SpoiltIs(w, first, second, base);
    EnteringSprings(w1, second, base, w.s.lastId + 1, LevelOf(first.stop, base));
    LooksSame(w, first, second, base);
  }

  lemma StopUnfilled(w: Whole, t: Ticket, base: nat)
    requires |w.f.book| > 1 && Acceptable(t, base, |w.f.book|) && StopTicket(t)
    ensures Contingent.Injected(Contingent.NewId(w.s), w.s.lastId + 1, TermsOf(t), Answer(w, t, base)).filled == 0
  {
  }

  lemma LooksSame(w: Whole, first: Ticket, second: Ticket, base: nat)
    requires |w.f.book| > 1 && AcceptablePair(first, second, base, |w.f.book|) && InOrder(w)
    requires StopTicket(first) && second.otype.LimitOrder?
    requires Enters(w, first, base).f == OneCancels.Enters(w.f, first, base).f
    ensures var p := LevelOf(second.limit, base);
      Looked(Enters(w, first, base).f, !second.isBuy, p, second.sz) == Looked(w.f, !second.isBuy, p, second.sz)
  {
    hide Fine, PlainBook, AllSized, IdsUpTo, Entered, Looked, Enters, Snug;
    StopEnters(w.f, first, base);
    SameLook(w.f, OneCancels.Enters(w.f, first, base).f, second, base);
  }

  /* ---- the first order is a limit order ---- */

  lemma EntersIdle(w: Whole, t: Ticket, base: nat)
    requires |w.f.book| > 1 && Acceptable(t, base, |w.f.book|) && t.otype.LimitOrder? && Snug(w.f)
    requires 0 < w.f.ask <= |w.f.book|
    requires Entering(w, t, base) == Walked(Numbered(w), [], t.sz)
    ensures var id := w.s.lastId + 1;
      var r := Enters(w, t, base);
      r.f == LimitRested(w.f, t.isBuy, LevelOf(t.limit, base), Resting(id, t.sz, false)).(lastId := r.s.lastId)
  {
    hide Entering, Checked, Contingent.Injected, Answer, LimitRested;
    SnugOutward(w.f);
  }

  /** A limit order that does not trade rests with the linked orders. */
  lemma InjectedIdle(w: Whole, t: Ticket, base: nat)
    requires |w.f.book| > 1 && Acceptable(t, base, |w.f.book|) && t.otype.LimitOrder? && Linked.Inv(w.s, 0, 0)
    requires Entering(w, t, base).fills == []
    ensures var r := Enters(w, t, base);
      && r.s == Contingent.Rest(Contingent.NewId(w.s), w.s.lastId + 1, Linked.Order(false, t.sz, Linked.Free))
      && Linked.Inv(r.s, 0, 0)
  {
    hide Linked.Inv, Answer, Enters, Contingent.Injected, Contingent.After, Contingent.Fresh, Linked.Potential,
      Entering, Routing.Routed;
    EnteringRouted(w, t, base);
    Contingent.NewIdOk(w.s, 0, 0);
    Unfilled(w, t, base);
    Contingent.InjectedOk(Contingent.NewId(w.s), w.s.lastId + 1, TermsOf(t), Answer(w, t, base));
    EntersIs(w, t, base);
  }

  /** Without a trade the plain entering of the order leaves the tape alone. */
  lemma TapeIdle(f: Floor, t: Ticket, base: nat)
    requires |f.book| > 1 && Acceptable(t, base, |f.book|) && t.otype.LimitOrder? && t.cond.Plain? && Orderly(f)
    requires FillsOf(f, t, base) == []
    ensures OneCancels.Enters(f, t, base).f.tape == f.tape
  {
    hide PlainBook, AllSized, IdsUpTo, Entered, Match, SalesOf, Snug;
    LimitEnters(f, t, base);
    NoSales(f.lastId + 1, base);
  }

  /** A limit order that does not trade rests in both accounts. */
  lemma LimitFirst(w: Whole, t: Ticket, base: nat)
    requires |w.f.book| > 1 && Acceptable(t, base, |w.f.book|) && t.otype.LimitOrder? && t.cond.Plain? && InOrder(w)
    requires Entering(w, t, base).fills == []
    ensures var r := Enters(w, t, base);
      && OneCancels.Enters(w.f, t, base).f.tape == w.f.tape
      && r.f == OneCancels.Enters(w.f, t, base).f
      && r.s == Contingent.Rest(Contingent.NewId(w.s), w.s.lastId + 1, Linked.Order(false, t.sz, Linked.Free))
      && InOrder(r)
  {
    hide PlainBook, AllSized, IdsUpTo, Entering, Enters, OneCancels.Enters, Linked.Inv, Agreed, LimitRested, Snug,
      FillsOf, Pushed, Linked.Potential, Contingent.After, Contingent.Fresh, Contingent.Injected, Answer;
    var id := w.s.lastId + 1;
    var p := LevelOf(t.limit, base);
    var r := Enters(w, t, base);
    Trades(w, t, base);
    TapeIdle(w.f, t, base);
    LimitRests(w.f, t, base);
    InjectedIdle(w, t, base);
    EntersIdle(w, t, base);
    LimitMeets(w.f, t.isBuy, p, Resting(id, t.sz, false));
    KnownChains(w.f.book, w.f.lastId);
    LimitAgrees(w, r.s, p, Resting(id, t.sz, false), r.f);
  }

  lemma LimitMeets(f: Floor, isBuy: bool, p: nat, b: Bundle)
    requires 0 < p < |f.book|
    ensures LimitRested(f, isBuy, p, b).(lastId := f.lastId + 1) == LimitRested(f.(lastId := f.lastId + 1), isBuy, p, b)
    ensures LimitRested(f, isBuy, p, b).book == Pushed(f.book, p, Limits, b)
  {
  }

  lemma Unfilled(w: Whole, t: Ticket, base: nat)
    requires |w.f.book| > 1 && Acceptable(t, base, |w.f.book|) && t.otype.LimitOrder?
    requires Routing.Routed(Contingent.NewId(w.s), t.sz, Answer(w, t, base)).1 == 0
    ensures Contingent.Injected(Contingent.NewId(w.s), w.s.lastId + 1, TermsOf(t), Answer(w, t, base)).filled == 0
    ensures !Contingent.Injected(Contingent.NewId(w.s), w.s.lastId + 1, TermsOf(t), Answer(w, t, base)).thrown
  {
    hide Routing.Routed, Answer;
  }

  lemma SnugOutward(f: Floor)
    requires Snug(f) && 0 < f.ask <= |f.book|
    ensures Outward(f.book, true, f.bid) == f.bid && Outward(f.book, false, f.ask) == f.ask
  {
  }

  lemma LimitAgrees(w: Whole, s: Linked.State, p: nat, b: Bundle, g: Floor)
    requires Agreed(w) && b.Resting? && !b.aon && 0 < p < |w.f.book|
    requires g.book == Pushed(w.f.book, p, Limits, b)
    requires s.orders == w.s.orders[b.id := Linked.Order(false, b.sz, Linked.Free)]
    requires forall r, x :: 0 <= r < |w.f.book| && (x in w.f.book[r].stops || x in w.f.book[r].limits) ==> x.id != b.id
    ensures Agreed(Whole(g, s))
  {
    assert g.book[p].limits == w.f.book[p].limits + [b];
    assert g.book[p].stops == w.f.book[p].stops;
  }

  /** Who is not among those hit is not touched by them. */
  lemma {:induction false} HitsTouch(s: Linked.State, left: nat, hits: seq<(nat, nat)>, x: nat)
    requires x !in s.touched && forall i :: 0 <= i < |hits| ==> hits[i].0 != x
    ensures x !in Routing.RoutedHits(s, left, hits).0.touched
    decreases |hits|
  {
    hide Linked.Hit;
    if hits != [] {
      assert forall i :: 0 <= i < |hits[1..]| ==> hits[1..][i] == hits[i + 1];
      if Linked.CanHit(s, hits[0].0, hits[0].1) && hits[0].1 <= left {
        HitTouches(s, hits[0].0, hits[0].1);
        HitsTouch(Linked.Hit(s, hits[0].0, hits[0].1), left - hits[0].1, hits[1..], x);
      } else {
        HitsTouch(s, left, hits[1..], x);
      }
    }
  }

  /** An order that is no stop is not triggered. */
  lemma {:induction false} TriggersTouch(s: Linked.State, ts: seq<(nat, bool)>, x: nat)
    requires x !in s.touched && (x in s.orders ==> !s.orders[x].stop)
    ensures x !in Routing.RoutedTriggers(s, ts).touched
    decreases |ts|
  {
    hide Linked.Triggered, Fewer;
    if ts != [] {
      if Linked.CanTrigger(s, ts[0].0) {
        TriggerTouches(s, ts[0].0, ts[0].1);
        TriggeredFewer(s, ts[0].0, ts[0].1);
        StillNoStop(s, Linked.Triggered(s, ts[0].0, ts[0].1), x);
        TriggersTouch(Linked.Triggered(s, ts[0].0, ts[0].1), ts[1..], x);
      } else {
        TriggersTouch(s, ts[1..], x);
      }
    }
  }

  lemma StillNoStop(s: Linked.State, s': Linked.State, x: nat)
    requires Fewer(s, s') && (x in s.orders ==> !s.orders[x].stop)
    ensures x in s'.orders ==> !s'.orders[x].stop
  {
  }

  lemma {:induction false} HitsFewer(s: Linked.State, left: nat, hits: seq<(nat, nat)>, x: nat)
    requires x in s.orders ==> !s.orders[x].stop
    ensures var s' := Routing.RoutedHits(s, left, hits).0; x in s'.orders ==> !s'.orders[x].stop
    decreases |hits|
  {
    hide Linked.Hit, Fewer;
    if hits != [] {
      if Linked.CanHit(s, hits[0].0, hits[0].1) && hits[0].1 <= left {
        HitFewer(s, hits[0].0, hits[0].1);
        StillNoStop(s, Linked.Hit(s, hits[0].0, hits[0].1), x);
        HitsFewer(Linked.Hit(s, hits[0].0, hits[0].1), left - hits[0].1, hits[1..], x);
      } else {
        HitsFewer(s, left, hits[1..], x);
      }
    }
  }

  /** The second order of a pair does not trade with a first that rests as a limit order. */
  lemma NotMade(w: Whole, first: Ticket, second: Ticket, base: nat)
    requires |w.f.book| > 1 && AcceptablePair(first, second, base, |w.f.book|) && InOrder(w)
    requires first.otype.LimitOrder? && second.otype.LimitOrder? && Entering(w, first, base).fills == []
    ensures forall f :: f in Entering(Enters(w, first, base), second, base).fills ==> f.maker != w.s.lastId + 1
  {
    hide PlainBook, AllSized, IdsUpTo, Entered, Fine, Walk, Checked, Match, SalesOf, LimitRested, Snug;
    LimitFirst(w, first, base);
    LimitRests(w.f, first, base);
    var w1 := Enters(w, first, base);
    hide Enters, OneCancels.Enters;
    var n := Numbered(w1);
    var bids, p := !second.isBuy, LevelOf(second.limit, base);
    WalkMakers(n, bids, InsideLevel(n.f, bids), Outermost(bids, |n.f.book|), p, second.sz, w.s.lastId + 1);
    forall f | f in Entering(w1, second, base).fills ensures f.maker != w.s.lastId + 1 {
      assert f in Walk(n, bids, InsideLevel(n.f, bids), Outermost(bids, |n.f.book|), p, second.sz).fills;
    }
  }

  lemma LimitThen(w: Whole, first: Ticket, second: Ticket, base: nat)
    requires |w.f.book| > 1 && AcceptablePair(first, second, base, |w.f.book|) && InOrder(w) && first.otype.LimitOrder?
    ensures !Spoilt(w, first, second, base)
  {
    hide InOrder, Spoilt, Answer, Entering, Enters, OneCancels.Enters, Routing.Routed, Routing.RoutedHits,
      Routing.RoutedTriggers;
    EnteringRouted(w, first, base);
    if Entering(w, first, base).fills != [] {
      FirstFilled(w, first, second, base);
    } else {
      LimitFirst(w, first, base);
      Unfilled(w, first, base);
      var w1 := Enters(w, first, base);
      if second.otype.LimitOrder? {
        SpoiltIs(w, first, second, base);
        NotMade(w, first, second, base);
        NotTouched(w, w1, first, second, base);
      } else {
        SecondUnfilled(w, first, second, base);
      }
    }
  }

  lemma FirstFilled(w: Whole, first: Ticket, second: Ticket, base: nat)
    requires |w.f.book| > 1 && AcceptablePair(first, second, base, |w.f.book|) && first.otype.LimitOrder?
    requires Routing.Routed(Contingent.NewId(w.s), first.sz, Answer(w, first, base)).1 > 0
    ensures !Spoilt(w, first, second, base)
  {
    hide Answer, Routing.Routed, Enters;
  }

  lemma SecondUnfilled(w: Whole, first: Ticket, second: Ticket, base: nat)
    requires |w.f.book| > 1 && AcceptablePair(first, second, base, |w.f.book|) && !second.otype.LimitOrder?
    ensures !Spoilt(w, first, second, base)
  {
    hide Enters, Acceptable;
    EntersIs(w, first, base);
  }

  lemma NotTouched(w: Whole, w1: Whole, first: Ticket, second: Ticket, base: nat)
    requires |w.f.book| > 1 && AcceptablePair(first, second, base, |w.f.book|) && InOrder(w) && second.otype.LimitOrder?
    requires w1 == Enters(w, first, base)
    requires w1.s == Contingent.Rest(Contingent.NewId(w.s), w.s.lastId + 1, Linked.Order(false, first.sz, Linked.Free))
    requires forall f :: f in Entering(w1, second, base).fills ==> f.maker != w.s.lastId + 1
    ensures w.s.lastId + 1 !in Routing.Routed(Contingent.NewId(w1.s), second.sz, Answer(w1, second, base)).0.touched
  {
    hide Orderly, Agreed, Linked.Inv, Entering, Checked, Enters, Routing.RoutedHits, Routing.RoutedTriggers, Acceptable;
    var x := w.s.lastId + 1;
    NewUntouched(w.s);
    var call := Answer(w1, second, base);
    var s := Contingent.NewId(w1.s);
    HitsTouch(s, second.sz, call.hits, x);
    HitsFewer(s, second.sz, call.hits, x);
    TriggersTouch(Routing.RoutedHits(s, second.sz, call.hits).0, call.triggers, x);
  }

  /* ---- both ---- */

  lemma TwoStops(w: Whole, first: Ticket, second: Ticket, base: nat)
    requires |w.f.book| > 1 && AcceptablePair(first, second, base, |w.f.book|)
    requires first.otype.LimitOrder? || !second.otype.LimitOrder?
    ensures !Spoils(w, first, second, base)
  {
    hide Enters, Entering, Takes, Looked;
  }

  /** Both orders of a pair trade or are triggered exactly when the first is a stop, the second a
      limit order that trades on entry, and the check for stops after that sweeps the level of the
      first: whatever the other orders of the book are linked to, and whomever that pulls while the
      second walks through the book. */
  lemma SpoiltIff(w: Whole, first: Ticket, second: Ticket, base: nat)
    requires |w.f.book| > 1 && AcceptablePair(first, second, base, |w.f.book|) && InOrder(w)
    ensures Spoilt(w, first, second, base) <==> Spoils(w, first, second, base)
  {
    hide Spoilt, Spoils, InOrder;
    if first.otype.LimitOrder? {
      LimitThen(w, first, second, base);
      TwoStops(w, first, second, base);
    } else if second.otype.LimitOrder? {
      StopThenLimit(w, first, second, base);
    } else {
      SecondUnfilled(w, first, second, base);
      TwoStops(w, first, second, base);
    }
  }
}
