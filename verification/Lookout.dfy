/** How far an order that enters a book of linked orders will trade, told by looking: whom a trade
    would pull is passed over further out. */
module Lookout {
  import opened Ladder
  import opened Matcher
  import opened Priority
  import opened Edges
  import opened Reference
  import opened Plain
  import opened OneCancels
  import opened Joint
  import opened Desk
  import Groundwork
  import Linked
  import Routing
  import Contingent

  /** What a look foretells: the trades, the size left, and who will have been pulled. */
  datatype Foretold = Foretold(fills: seq<Fill>, left: nat, gone: set<nat>)

  /** Looking down a limit chain. */
  function LookChain(c: seq<Bundle>, orders: map<nat, Linked.Order>, gone: set<nat>, p: nat, size: nat): (r: Foretold)
    ensures r.left <= size
  {
    if c == [] || size == 0 then Foretold([], size, gone)
    else if c[0].id in gone then LookChain(c[1..], orders, gone, p, size)
    else
      var amount := Min(size, c[0].sz);
      var pulled := if c[0].id in orders then Pulls(orders[c[0].id], amount) else 0;
      var r := LookChain(c[1..], orders, gone + {pulled}, p, size - amount);
      r.(fills := [Fill(p, c[0].id, amount)] + r.fills)
  }

  /** Looking at all levels of a side from p out to limit. */
  function Look(book: seq<Level>, orders: map<nat, Linked.Order>, bids: bool, inside: nat, p: nat, limit: nat,
          gone: set<nat>, size: nat): (r: Foretold)
    requires OnBook(|book|, bids, p, limit)
    ensures r.left <= size
    decreases if bids then p else |book| - p
  {
    if size == 0 || !InsideOf(bids, p, limit) then Foretold([], size, gone)
    else
      var h := if OnSide(bids, p, inside) then LookChain(book[p].limits, orders, gone, p, size)
        else Foretold([], size, gone);
      var r := Look(book, orders, bids, inside, Next(bids, p), limit, h.gone, h.left);
      r.(fills := h.fills + r.fills)
  }

  /* ---- looking is right ---- */

  /** The orders not yet come to are as they were, but for those gone. */
  ghost predicate Told(orders: map<nat, Linked.Order>, gone: set<nat>, s: Linked.State, c: seq<Bundle>) {
    forall b :: b in c ==>
      && b.id in orders && !orders[b.id].stop && orders[b.id].sz == b.sz && b.sz > 0
      && if b.id in gone then b.id !in s.orders else b.id in s.orders && s.orders[b.id] == orders[b.id]
  }

  /** id is no entry that x is an exit of. */
  predicate Unrelated(orders: map<nat, Linked.Order>, id: nat, x: nat) {
    id in orders && orders[id].cond.Entry? ==> orders[id].cond.loss != x && orders[id].cond.target != x
  }

  /** Bundle b is at index i of the limit chain of level r. */
  ghost predicate At(book: seq<Level>, r: nat, i: nat, b: Bundle) {
    r < |book| && i < |book[r].limits| && book[r].limits[i] == b
  }

  /** No order rests twice in a side, and no entry rests on the side of its own exits. */
  ghost predicate Separate(w: Whole, bids: bool, inside: nat) {
    && (forall r: nat, i: nat, b, q: nat, j: nat, c ::
          At(w.f.book, r, i, b) && At(w.f.book, q, j, c) && b.id == c.id ==> r == q && i == j)
    && (forall r: nat, i: nat, b, q: nat, j: nat, c ::
          At(w.f.book, r, i, b) && At(w.f.book, q, j, c) && OnSide(bids, r, inside) && OnSide(bids, q, inside) ==>
            Unrelated(w.s.orders, b.id, c.id))
  }

  /** In orders x is as it was, unless the fill of id has pulled it. */
  ghost predicate Spared(s: Linked.State, orders: map<nat, Linked.Order>, id: nat, amount: nat, x: nat)
    requires id in s.orders
  {
    if x !in s.orders || x == Pulls(s.orders[id], amount) then x !in orders
      else x in orders && orders[x] == s.orders[x]
  }

  /** What a fill of id does to another limit order x: nothing, unless it pulls it. */
  lemma HitOther(s: Linked.State, id: nat, amount: nat, x: nat)
    requires Linked.Inv(s, 0, 0) && Linked.CanHit(s, id, amount) && x != id && Unrelated(s.orders, id, x)
    requires x in s.orders ==> !s.orders[x].stop
    ensures Spared(s, Linked.Hit(s, id, amount).orders, id, amount, x)
  {
    hide Linked.Exclusive, Linked.Booked, Linked.Active, Linked.Positioned;
    assert 0 !in s.orders;
    hide Linked.Numbered;
    HitOtherwise(s, id, amount, x);
  }

  lemma HandledEntry(s: Linked.State, id: nat, amount: nat, x: nat)
    requires Linked.CanHit(s, id, amount) && Unrelated(s.orders, id, x) && s.orders[id].cond.Entry?
    ensures var orders := Linked.Handled(Linked.Traded(s, id, amount), id, amount).orders;
      if x !in s.orders then x !in orders else x in orders && orders[x] == s.orders[x]
  {
  }

  lemma HandledLink(s: Linked.State, id: nat, amount: nat, x: nat)
    requires Linked.CanHit(s, id, amount) && x != id && !s.orders[id].cond.Entry? && x != 0
    requires s.orders[id].cond.Exit? ==> s.orders[id].cond.partner != x || Pulls(s.orders[id], amount) == x
    ensures Spared(s, Linked.Handled(Touched(s, id), id, amount).orders, id, amount, x)
  {
  }

  function Touched(s: Linked.State, id: nat): Linked.State {
    Linked.Touch(s, id)
  }

  lemma HandledOther(s: Linked.State, id: nat, amount: nat, x: nat)
    requires Linked.CanHit(s, id, amount) && x != id && Unrelated(s.orders, id, x) && x != 0
    requires s.orders[id].cond.Exit? ==> s.orders[id].cond.partner != x || Pulls(s.orders[id], amount) == x
    ensures Spared(s, Linked.Handled(Linked.Traded(s, id, amount), id, amount).orders, id, amount, x)
  {
    hide Linked.Handled;
    if s.orders[id].cond.Entry? {
      HandledEntry(s, id, amount, x);
    } else {
      HandledLink(s, id, amount, x);
    }
  }

  lemma HitOtherwise(s: Linked.State, id: nat, amount: nat, x: nat)
    requires Linked.Symmetric(s.orders) && 0 !in s.orders && Linked.CanHit(s, id, amount) && x != id
      && Unrelated(s.orders, id, x)
    requires x in s.orders ==> !s.orders[x].stop
    ensures Spared(s, Linked.Hit(s, id, amount).orders, id, amount, x)
  {
    if x == 0 {
      HitFewer(s, id, amount);
      hide Linked.Hit;
    } else {
      assert s.orders[id].cond.Exit? ==> s.orders[id].cond.partner != x;
      hide Linked.Symmetric, Linked.Handled, Linked.Traded;
      HandledOther(s, id, amount, x);
    }
  }

  /** A whole fill of id takes it out. */
  lemma HitOut(s: Linked.State, id: nat)
    requires Linked.Inv(s, 0, 0) && id in s.orders && Linked.CanHit(s, id, s.orders[id].sz)
    ensures id !in Linked.Hit(s, id, s.orders[id].sz).orders
  {
    if s.orders[id].cond.Entry? {
      Linked.EntryFacts(s, id, 0, 0);
      hide Linked.Inv;
    } else {
      hide Linked.Exclusive, Linked.Booked, Linked.Active, Linked.Positioned, Linked.Numbered;
    }
  }

  lemma {:induction false} LiveTwice(c: seq<Bundle>, o: map<nat, Linked.Order>, o': map<nat, Linked.Order>)
    requires o'.Keys <= o.Keys
    ensures Live(Live(c, o), o') == Live(c, o')
  {
    if c != [] {
      LiveTwice(c[1..], o, o');
      if c[0].id in o {
        var b := Resized(c[0], o[c[0].id].sz);
        assert Live(c, o) == [b] + Live(c[1..], o);
        assert ([b] + Live(c[1..], o))[1..] == Live(c[1..], o);
      } else {
        assert Live(c, o) == Live(c[1..], o);
      }
    }
  }

  lemma ToldOn(orders: map<nat, Linked.Order>, gone: set<nat>, s: Linked.State, d: seq<Bundle>, id: nat, amount: nat)
    requires Linked.Inv(s, 0, 0) && Linked.CanHit(s, id, amount) && id in orders && s.orders[id] == orders[id]
    requires Told(orders, gone, s, d) && forall b :: b in d ==> b.id != id && Unrelated(orders, id, b.id)
    ensures Told(orders, gone + {Pulls(orders[id], amount)}, Linked.Hit(s, id, amount), d)
  {
    hide Linked.Inv, Linked.Hit, Linked.CanHit;
    forall b | b in d
      ensures if b.id in gone + {Pulls(orders[id], amount)} then b.id !in Linked.Hit(s, id, amount).orders
        else b.id in Linked.Hit(s, id, amount).orders && Linked.Hit(s, id, amount).orders[b.id] == orders[b.id]
    {
      HitOther(s, id, amount, b.id);
    }
  }

  /** The orders of d are others than those of c, and no exits of theirs. */
  ghost predicate Foreign(orders: map<nat, Linked.Order>, c: seq<Bundle>, d: seq<Bundle>) {
    forall b, x :: b in c && x in d ==> b.id != x.id && Unrelated(orders, b.id, x.id)
  }

  /** The orders of a chain are different ones, and none is an exit of one before it. */
  ghost predicate Apart(orders: map<nat, Linked.Order>, c: seq<Bundle>) {
    forall i, j :: 0 <= i < j < |c| ==> c[i].id != c[j].id && Unrelated(orders, c[i].id, c[j].id)
  }

  /** Chain d of level q is known as it was, but for those gone. */
  ghost predicate Known(w: Whole, orders: map<nat, Linked.Order>, gone: set<nat>, q: nat, d: seq<Bundle>) {
    q < |w.f.book| && w.f.book[q].limits == Live(d, w.s.orders) && Told(orders, gone, w.s, d)
  }

  lemma KnownOn(w: Whole, orders: map<nat, Linked.Order>, gone: set<nat>, q: nat, d: seq<Bundle>, id: nat, amount: nat)
    requires Linked.Inv(w.s, 0, 0) && Linked.CanHit(w.s, id, amount) && id in orders && w.s.orders[id] == orders[id]
    requires Known(w, orders, gone, q, d) && forall b :: b in d ==> b.id != id && Unrelated(orders, id, b.id)
    ensures Known(Joint.Strike(w, id, amount), orders, gone + {Pulls(orders[id], amount)}, q, d)
  {
    hide Linked.Inv, Linked.Hit, Linked.CanHit, Told, Fewer;
    var s := Linked.Hit(w.s, id, amount);
    ToldOn(orders, gone, w.s, d, id, amount);
    HitFewer(w.s, id, amount);
    FewerKeys(w.s, s);
    LiveTwice(d, w.s.orders, s.orders);
  }

  lemma FewerKeys(s: Linked.State, s': Linked.State)
    requires Fewer(s, s')
    ensures s'.orders.Keys <= s.orders.Keys
  {
  }

  lemma ChainTail(w: Whole, orders: map<nat, Linked.Order>, gone: set<nat>, p: nat, c: seq<Bundle>, d: seq<Bundle>)
    requires c != []
    ensures Apart(orders, c) ==> Apart(orders, c[1..])
    ensures Foreign(orders, c, d) ==> Foreign(orders, c[1..], d)
    ensures Known(w, orders, gone, p, c) && c[0].id in gone ==> Known(w, orders, gone, p, c[1..])
  {
    assert c[0] in c && forall b :: b in c[1..] ==> b in c;
    if Apart(orders, c) {
      forall i, j | 0 <= i < j < |c[1..]|
        ensures c[1..][i].id != c[1..][j].id && Unrelated(orders, c[1..][i].id, c[1..][j].id) {
        assert c[1..][i] == c[i + 1] && c[1..][j] == c[j + 1];
      }
    }
  }

  /** The front of a chain, if it is not gone. */
  lemma ChainFront(w: Whole, orders: map<nat, Linked.Order>, gone: set<nat>, p: nat, c: seq<Bundle>, size: nat)
    requires Known(w, orders, gone, p, c) && c != [] && c[0].id !in gone && size > 0
    ensures w.f.book[p].limits != [] && w.f.book[p].limits[0] == c[0]
    ensures c[0].id in orders && c[0].id in w.s.orders && w.s.orders[c[0].id] == orders[c[0].id] && c[0].sz > 0
    ensures Linked.CanHit(w.s, c[0].id, Min(size, c[0].sz))
  {
    assert c[0] in c;
  }

  lemma ForeignFront(orders: map<nat, Linked.Order>, c: seq<Bundle>, d: seq<Bundle>)
    requires Foreign(orders, c, d) && c != []
    ensures forall b :: b in d ==> b.id != c[0].id && Unrelated(orders, c[0].id, b.id)
  {
    assert c[0] in c;
  }

  lemma KnownEmpty(w: Whole, orders: map<nat, Linked.Order>, gone: set<nat>, p: nat)
    requires Known(w, orders, gone, p, [])
    ensures w.f.book[p].limits == []
  {
  }

  /** Hitting a chain comes to what looking down it foretells, and d of another level stays known. */
  lemma {:induction false} ChainIs(w: Whole, c: seq<Bundle>, orders: map<nat, Linked.Order>, gone: set<nat>, p: nat,
          size: nat, q: nat, d: seq<Bundle>)
    requires Linked.Inv(w.s, 0, 0) && p < |w.f.book| && Known(w, orders, gone, p, c) && Apart(orders, c)
    ensures var r := StrikeChain(w, p, size);
      var l := LookChain(c, orders, gone, p, size);
      && r.fills == l.fills && r.left == l.left && Linked.Inv(r.w.s, 0, 0)
      && (q != p && Known(w, orders, gone, q, d) && Foreign(orders, c, d) ==> Known(r.w, orders, l.gone, q, d))
    decreases |c|
  {
    hide Linked.Inv, Joint.Strike, Linked.Potential, Linked.Hit, Linked.CanHit, Known, Foreign, Apart;
    if c == [] {
      KnownEmpty(w, orders, gone, p);
    } else if size != 0 {
      ChainTail(w, orders, gone, p, c, d);
      if c[0].id in gone {
        ChainIs(w, c[1..], orders, gone, p, size, q, d);
      } else {
        ChainFront(w, orders, gone, p, c, size);
        var id, amount := c[0].id, Min(size, c[0].sz);
        var w1 := Joint.Strike(w, id, amount);
        var gone1 := gone + {Pulls(orders[id], amount)};
        Linked.HitOk(w.s, id, amount, 0, 0);
        StrikeIs(w, id, amount);
        if q != p && Known(w, orders, gone, q, d) && Foreign(orders, c, d) {
          ForeignFront(orders, c, d);
          KnownOn(w, orders, gone, q, d, id, amount);
        }
        if amount == c[0].sz {
          OneOut(w, orders, gone, p, c, id);
          ChainIs(w1, c[1..], orders, gone1, p, size - amount, q, d);
        }
      }
    }
  }

  /** The front of a chain is filled. */
  lemma OneOut(w: Whole, orders: map<nat, Linked.Order>, gone: set<nat>, p: nat, c: seq<Bundle>, id: nat)
    requires Linked.Inv(w.s, 0, 0) && Known(w, orders, gone, p, c) && Apart(orders, c)
    requires c != [] && id == c[0].id && id !in gone
    ensures Linked.CanHit(w.s, id, c[0].sz)
    ensures Known(Joint.Strike(w, id, c[0].sz), orders, gone + {Pulls(orders[id], c[0].sz)}, p, c[1..])
  {
    assert c[0] in c;
    hide Linked.Inv, Linked.Hit, Fewer;
    var s := Linked.Hit(w.s, id, c[0].sz);
    assert Told(orders, gone, w.s, c[1..]) by {
      assert forall b :: b in c[1..] ==> b in c;
    }
    forall b | b in c[1..] ensures b.id != id && Unrelated(orders, id, b.id) {
      var j :| 0 <= j < |c[1..]| && c[1..][j] == b;
      assert c[j + 1] == b;
    }
    ToldOn(orders, gone, w.s, c[1..], id, c[0].sz);
    HitFewer(w.s, id, c[0].sz);
    FewerKeys(w.s, s);
    LiveTwice(c, w.s.orders, s.orders);
    HitOut(w.s, id);
    assert Live(c, s.orders) == Live(c[1..], s.orders);
  }

  /** The levels of the side from p on are known as they were in w0, but for those gone. */
  ghost predicate Ahead(w0: Whole, w: Whole, gone: set<nat>, bids: bool, inside: nat, p: nat) {
    && |w.f.book| == |w0.f.book|
    && forall r: nat :: 0 < r < |w.f.book| && Beyond(bids, p, r) && OnSide(bids, r, inside) ==>
         Known(w, w0.s.orders, gone, r, w0.f.book[r].limits)
  }

  lemma SeparateChains(w: Whole, bids: bool, inside: nat, r: nat, q: nat)
    requires Separate(w, bids, inside) && r < |w.f.book| && q < |w.f.book|
    requires OnSide(bids, r, inside) && OnSide(bids, q, inside)
    ensures Apart(w.s.orders, w.f.book[r].limits)
    ensures r != q ==> Foreign(w.s.orders, w.f.book[r].limits, w.f.book[q].limits)
  {
    var c, d := w.f.book[r].limits, w.f.book[q].limits;
    forall i, j | 0 <= i < j < |c| ensures c[i].id != c[j].id && Unrelated(w.s.orders, c[i].id, c[j].id) {
      assert At(w.f.book, r, i, c[i]) && At(w.f.book, r, j, c[j]);
    }
    if r != q {
      forall b, x | b in c && x in d ensures b.id != x.id && Unrelated(w.s.orders, b.id, x.id) {
        var i :| 0 <= i < |c| && c[i] == b;
        var j :| 0 <= j < |d| && d[j] == x;
        assert At(w.f.book, r, i, b) && At(w.f.book, q, j, x);
      }
    }
  }

  /** A walk through the book comes to what looking foretells. */
  lemma {:induction false} WalkIs(w0: Whole, w: Whole, bids: bool, inside: nat, p: nat, limit: nat, gone: set<nat>,
          size: nat)
    requires OnBook(|w.f.book|, bids, p, limit) && Linked.Inv(w.s, 0, 0)
    requires Separate(w0, bids, inside) && Ahead(w0, w, gone, bids, inside, p)
    ensures var r := Walk(w, bids, inside, p, limit, size);
      var l := Look(w0.f.book, w0.s.orders, bids, inside, p, limit, gone, size);
      r.fills == l.fills && r.left == l.left
    decreases if bids then p else |w.f.book| - p
  {
    if size != 0 && InsideOf(bids, p, limit) {
      hide Linked.Inv, StrikeChain, LookChain, Separate, Known, Apart, Foreign;
      var c := w0.f.book[p].limits;
      if OnSide(bids, p, inside) {
        assert Known(w, w0.s.orders, gone, p, c);
        SeparateChains(w0, bids, inside, p, p);
        ChainIs(w, c, w0.s.orders, gone, p, size, p, c);
        var h := StrikeChain(w, p, size);
        var l := LookChain(c, w0.s.orders, gone, p, size);
        forall r: nat | 0 < r < |w.f.book| && Beyond(bids, Next(bids, p), r) && OnSide(bids, r, inside)
          ensures Known(h.w, w0.s.orders, l.gone, r, w0.f.book[r].limits)
        {
          SeparateChains(w0, bids, inside, p, r);
          ChainIs(w, c, w0.s.orders, gone, p, size, r, w0.f.book[r].limits);
        }
        WalkIs(w0, h.w, bids, inside, Next(bids, p), limit, l.gone, h.left);
      } else {
        WalkIs(w0, w, bids, inside, Next(bids, p), limit, gone, size);
      }
    }
  }

  /** All that an order that enters will trade is told by looking at the book before, passing over
      whom earlier trades would pull. */
  lemma LookoutIs(w: Whole, t: Ticket, base: nat)
    requires |w.f.book| > 1 && Acceptable(t, base, |w.f.book|) && t.otype.LimitOrder? && InOrder(w)
    requires Separate(w, !t.isBuy, InsideLevel(w.f, !t.isBuy))
    ensures var bids := !t.isBuy;
      var from := Outermost(bids, |w.f.book|);
      var l := Look(w.f.book, w.s.orders, bids, InsideLevel(w.f, bids), from, LevelOf(t.limit, base), {}, t.sz);
      var r := Entering(w, t, base);
      r.fills == l.fills && r.left == l.left && r.w.f.last == LastLevel(l.fills, w.f.last)
  {
    var n := Numbered(w);
    var bids := !t.isBuy;
    NumberedFine(w, 0, 0);
    hide Fine, Separate, Known, Walk, Look, Orderly;
    forall r: nat | 0 < r < |w.f.book| ensures Known(n, w.s.orders, {}, r, w.f.book[r].limits) {
      KnownAtFirst(w, r);
    }
    SeparateSame(w, n, bids, InsideLevel(w.f, bids));
    FineAgreed(n);
    WalkIs(n, n, bids, InsideLevel(w.f, bids), Outermost(bids, |w.f.book|), LevelOf(t.limit, base), {}, t.sz);
  }

  lemma KnownAtFirst(w: Whole, r: nat)
    requires InOrder(w) && r < |w.f.book|
    ensures Known(Numbered(w), w.s.orders, {}, r, w.f.book[r].limits)
  {
    SizedBook(w);
    assert Agreed(w) by {
      FineAgreed(w);
    }
    hide Fine, Orderly;
    forall b | b in w.f.book[r].limits
      ensures b.id in w.s.orders && !w.s.orders[b.id].stop && w.s.orders[b.id].sz == b.sz && b.sz > 0
    {
      assert Matches(w.s, b, false);
    }
    LiveSame(w.f.book[r].limits, w.s.orders);
  }

  lemma SeparateSame(w: Whole, n: Whole, bids: bool, inside: nat)
    requires Separate(w, bids, inside) && n.f == w.f && n.s.orders == w.s.orders
    ensures Separate(n, bids, inside)
  {
  }

  lemma SizedBook(w: Whole)
    requires InOrder(w)
    ensures forall r, b :: 0 <= r < |w.f.book| && b in w.f.book[r].limits ==> b.sz > 0
  {
    forall r, b | 0 <= r < |w.f.book| && b in w.f.book[r].limits ensures b.sz > 0 {
      assert Sized(Chain(w.f.book[r], Limits));
    }
  }

  lemma {:induction false} LiveSame(c: seq<Bundle>, orders: map<nat, Linked.Order>)
    requires forall b :: b in c ==> b.id in orders && orders[b.id].sz == b.sz
    ensures Live(c, orders) == c
  {
    if c != [] {
      assert c[0] in c && forall b :: b in c[1..] ==> b in c;
      LiveSame(c[1..], orders);
      assert c == [c[0]] + c[1..];
    }
  }

  /* ---- stops that are due are always swept ---- */

  /** x rests as a stop of the given side at level q. */
  ghost predicate SideAt(f: Floor, buys: bool, x: nat, q: nat) {
    q < |f.book| && exists b :: b in f.book[q].stops && b.Stop? && b.isBuy == buys && b.id == x
  }

  /** The stop window of a side covers its stops. */
  ghost predicate Covers(f: Floor, buys: bool) {
    if buys then StopsWithin(f.book, true, f.lowBuyStop, f.highBuyStop)
    else StopsWithin(f.book, false, f.lowSellStop, f.highSellStop)
  }

  /** What stays covered and in place from w to r, for an order x that is not pulled. */
  ghost predicate Steadily(w: Whole, r: Whole, buys: bool, x: nat, q: nat) {
    && r.s.orders.Keys <= w.s.orders.Keys
    && (Covers(w.f, buys) ==> Covers(r.f, buys))
    && (SideAt(w.f, buys, x, q) && x in r.s.orders ==> SideAt(r.f, buys, x, q))
  }

  lemma FollowedStops(book: seq<Level>, orders: map<nat, Linked.Order>, p: nat, buys: bool)
    requires p < |book| && HasStop(Followed(book, orders)[p], buys)
    ensures HasStop(book[p], buys)
  {
    var b :| b in Followed(book, orders)[p].stops && b.Stop? && b.isBuy == buys;
    LiveWas(book[p].stops, orders, b);
  }

  lemma FollowedSide(f: Floor, g: Floor, orders: map<nat, Linked.Order>, buys: bool, x: nat, q: nat)
    requires SideAt(f, buys, x, q) && x in orders && g.book == Followed(f.book, orders)
    ensures SideAt(g, buys, x, q)
  {
    var b :| b in f.book[q].stops && b.Stop? && b.isBuy == buys && b.id == x;
    LiveIs(f.book[q].stops, orders, b);
  }

  lemma ShutCovers(f: Floor, orders: map<nat, Linked.Order>, id: nat, buys: bool)
    requires Covers(f, buys)
    ensures Covers(Shut(f, Followed(f.book, orders), id), buys)
  {
    var book := Followed(f.book, orders);
    forall p | 0 <= p < |book| && HasStop(book[p], buys) ensures HasStop(f.book[p], buys) {
      FollowedStops(f.book, orders, p, buys);
    }
    hide Followed, StopLevel;
    var p := StopLevel(f.book, id, |f.book|);
    if p > 0 {
      var b := f.book[p].stops[IndexOf(f.book[p].stops, id)];
      assert b in f.book[p].stops;
      hide IndexOf;
      if b.Stop? {
        assert HasStop(f.book[p], b.isBuy);
        GoneCovers(f, book, b.isBuy, p, buys);
      }
    }
  }

  lemma GoneCovers(f: Floor, book: seq<Level>, side: bool, p: nat, buys: bool)
    requires Covers(f, buys) && |book| == |f.book| && p < |book| && HasStop(f.book[p], side)
    requires forall r :: 0 <= r < |book| && HasStop(book[r], buys) ==> HasStop(f.book[r], buys)
    ensures Covers(Groundwork.StopGone(f, book, side, p), buys)
  {
  }

  lemma StrikeSteadily(w: Whole, id: nat, amount: nat, buys: bool, x: nat, q: nat)
    requires Linked.CanHit(w.s, id, amount)
    ensures Steadily(w, Joint.Strike(w, id, amount), buys, x, q)
  {
    hide Linked.Hit, Shut, Covers, SideAt, Fewer;
    var s := Linked.Hit(w.s, id, amount);
    HitFewer(w.s, id, amount);
    FewerKeys(w.s, s);
    if Covers(w.f, buys) {
      ShutCovers(w.f, s.orders, Pulls(w.s.orders[id], amount), buys);
    }
    if SideAt(w.f, buys, x, q) && x in s.orders {
      FollowedSide(w.f, Joint.Strike(w, id, amount).f, s.orders, buys, x, q);
    }
  }

  lemma {:induction false} StrikeChainSteadily(w: Whole, p: nat, size: nat, buys: bool, x: nat, q: nat)
    requires p < |w.f.book|
    ensures Steadily(w, StrikeChain(w, p, size).w, buys, x, q)
    decreases size
  {
    hide Joint.Strike, Covers, SideAt;
    var c := w.f.book[p].limits;
    if size != 0 && c != [] && Linked.CanHit(w.s, c[0].id, Min(size, c[0].sz)) {
      var amount := Min(size, c[0].sz);
      var w1 := Joint.Strike(w, c[0].id, amount);
      StrikeSteadily(w, c[0].id, amount, buys, x, q);
      StrikeChainSteadily(w1, p, size - amount, buys, x, q);
    }
  }

  lemma {:induction false} WalkSteadily(w: Whole, bids: bool, inside: nat, p: nat, limit: nat, size: nat, buys: bool,
          x: nat, q: nat)
    requires OnBook(|w.f.book|, bids, p, limit)
    ensures Steadily(w, Walk(w, bids, inside, p, limit, size).w, buys, x, q)
    decreases if bids then p else |w.f.book| - p
  {
    hide StrikeChain, Covers, SideAt;
    if size != 0 && InsideOf(bids, p, limit) {
      if OnSide(bids, p, inside) {
        var h := StrikeChain(w, p, size);
        StrikeChainSteadily(w, p, size, buys, x, q);
        WalkSteadily(h.w, bids, inside, Next(bids, p), limit, h.left, buys, x, q);
      } else {
        WalkSteadily(w, bids, inside, Next(bids, p), limit, size, buys, x, q);
      }
    }
  }

  lemma SpringSteadily(w: Whole, b: Bundle, x: nat, q: nat)
    ensures Steadily(w, Spring(w, b), false, x, q)
  {
    hide Linked.Triggered, Shut, Covers, SideAt, Fewer, Linked.CanTrigger;
    if Linked.CanTrigger(w.s, b.id) {
      var market := b.Stop? && b.limit == 0;
      var s := Linked.Triggered(w.s, b.id, market);
      CanTriggerIn(w.s, b.id);
      TriggeredFewer(w.s, b.id, market);
      FewerKeys(w.s, s);
      if Covers(w.f, false) {
        ShutCovers(w.f, s.orders, Pulls(w.s.orders[b.id], w.s.orders[b.id].sz), false);
      }
      if SideAt(w.f, false, x, q) && x in s.orders {
        FollowedSide(w.f, Spring(w, b).f, s.orders, false, x, q);
      }
    }
  }

  lemma CanTriggerIn(s: Linked.State, id: nat)
    requires Linked.CanTrigger(s, id)
    ensures id in s.orders
  {
  }

  lemma {:induction false} SpringAllSteadily(w: Whole, c: seq<Bundle>, x: nat, q: nat)
    ensures Steadily(w, SpringAll(w, c), false, x, q)
    decreases |c|
  {
    hide Spring, Covers, SideAt;
    if c != [] {
      SpringSteadily(w, c[0], x, q);
      SpringAllSteadily(Spring(w, c[0]), c[1..], x, q);
    }
  }

  lemma FreedSteadily(w: Whole, p: nat, x: nat, q: nat)
    requires p < |w.f.book|
    ensures Covers(w.f, false) ==> Covers(Freed(w.f, true, p), false)
    ensures p != q && SideAt(w.f, false, x, q) ==> SideAt(Freed(w.f, true, p), false, x, q)
  {
  }

  lemma {:induction false} UpSteadily(w: Whole, p: nat, last: nat, x: nat, q: nat)
    requires Covers(w.f, false) && SideAt(w.f, false, x, q) && (q < p || last < q)
    ensures var r := Up(w, p, last).w;
      && r.s.orders.Keys <= w.s.orders.Keys && Covers(r.f, false)
      && (x in r.s.orders ==> SideAt(r.f, false, x, q))
    decreases last + 1 - p
  {
    hide SpringAll, Covers, SideAt;
    if p <= last && p < |w.f.book| {
      FreedSteadily(w, p, x, q);
      var w1 := TakeLevel(w, true, p);
      SpringAllSteadily(w.(f := Freed(w.f, true, p)), w.f.book[p].stops, x, q);
      if x in w1.s.orders {
        UpSteadily(w1, p + 1, last, x, q);
      } else {
        UpKeys(w1, p + 1, last);
        UpCovers(w1, p + 1, last);
      }
    }
  }

  lemma {:induction false} UpKeys(w: Whole, p: nat, last: nat)
    ensures Up(w, p, last).w.s.orders.Keys <= w.s.orders.Keys
    decreases last + 1 - p
  {
    hide SpringAll, Covers, SideAt;
    if p <= last && p < |w.f.book| {
      SpringAllSteadily(w.(f := Freed(w.f, true, p)), w.f.book[p].stops, 0, 0);
      UpKeys(TakeLevel(w, true, p), p + 1, last);
    }
  }

  lemma {:induction false} UpCovers(w: Whole, p: nat, last: nat)
    requires Covers(w.f, false)
    ensures Covers(Up(w, p, last).w.f, false)
    decreases last + 1 - p
  {
    hide SpringAll, Covers, SideAt;
    if p <= last && p < |w.f.book| {
      FreedSteadily(w, p, 0, 0);
      SpringAllSteadily(w.(f := Freed(w.f, true, p)), w.f.book[p].stops, 0, 0);
      UpCovers(TakeLevel(w, true, p), p + 1, last);
    }
  }

  /** Whatever is pulled on the way, a stop that is due by the last of the trades is swept: a buy
      stop at or below it, a sell stop at or above. */
  lemma DueTaken(w: Whole, t: Ticket, base: nat, buys: bool, x: nat, q: nat)
    requires |w.f.book| > 1 && Acceptable(t, base, |w.f.book|) && t.otype.LimitOrder? && InOrder(w)
    requires Standing(w, x, q) && SideAt(w.f, buys, x, q) && Covers(w.f, buys)
    ensures var r := Entering(w, t, base);
      (if buys then q <= r.w.f.last else r.w.f.last <= q) ==> Takes(r, q)
  {
    hide Fine, Standing, Walk, Up, Covers, SideAt, Routing.Onward, Orderly;
    var n := Numbered(w);
    var bids, p := !t.isBuy, LevelOf(t.limit, base);
    var inside := InsideLevel(n.f, bids);
    NumberedFine(w, x, q);
    WalkSteadily(n, bids, inside, Outermost(bids, |n.f.book|), p, t.sz, buys, x, q);
    WalkKept(n, bids, inside, Outermost(bids, |n.f.book|), p, t.sz, x, q);
    var r0 := Walk(n, bids, inside, Outermost(bids, |n.f.book|), p, t.sz);
    var r := Entering(w, t, base);
    SameSides(w.f, n.f, buys, x, q);
    StandsStill(r0.w, x, q);
    SameSides(r0.w.f, r.w.f, buys, x, q);
    if buys {
      WithinWindow(r.w.f, buys, x, q);
    } else if r.w.f.last <= q && !(r.w.f.lowBuyStop <= q <= r.w.f.last) {
      LastMoved(r0.w, r.w, x, q);
      var low, last := r.w.f.lowBuyStop, r.w.f.last;
      var u := Up(r.w, low, last).w;
      UpSprings(r.w, low, last, x, q);
      UpSteadily(r.w, low, last, x, q);
      StandsStill(u, x, q);
      WithinWindow(u.f, buys, x, q);
    }
  }

  lemma SameSides(f: Floor, g: Floor, buys: bool, x: nat, q: nat)
    requires g == f.(last := g.last)
    ensures Covers(g, buys) <==> Covers(f, buys)
    ensures SideAt(g, buys, x, q) <==> SideAt(f, buys, x, q)
  {
  }

  lemma StandsStill(w: Whole, x: nat, q: nat)
    requires Standing(w, x, q)
    ensures x in w.s.orders
  {
  }

  lemma WithinWindow(f: Floor, buys: bool, x: nat, q: nat)
    requires Covers(f, buys) && SideAt(f, buys, x, q)
    ensures if buys then f.lowBuyStop <= q <= f.highBuyStop else f.lowSellStop <= q <= f.highSellStop
  {
    assert HasStop(f.book[q], buys);
  }

  /* ---- without links ---- */

  ghost predicate AllFree(s: Linked.State) {
    forall x :: x in s.orders ==> s.orders[x].cond.Free?
  }

  /** Looking down a chain of orders that are linked to nothing foretells what hitting it does. */
  lemma {:induction false} LookChainFree(c: seq<Bundle>, orders: map<nat, Linked.Order>, gone: set<nat>, p: nat,
          size: nat)
    requires (forall b :: b in c ==> b.id in orders) && (forall x :: x in orders ==> orders[x].cond.Free?)
    requires PlainChain(c) && Sizes(c) && gone <= {0} && 0 !in orders
    ensures var l := LookChain(c, orders, gone, p, size);
      l.fills == HitLimits(c, p, size).fills && l.left == HitLimits(c, p, size).left && l.gone <= {0}
  {
    if c != [] && size != 0 {
      assert c[0] in c && forall b :: b in c[1..] ==> b in c;
      if size < c[0].sz {
        assert LookChain(c[1..], orders, gone + {0}, p, 0) == Foretold([], 0, gone + {0});
      } else {
        LookChainFree(c[1..], orders, gone + {0}, p, size - c[0].sz);
      }
    }
  }

  predicate Sizes(c: seq<Bundle>) {
    forall b :: b in c ==> b.sz > 0
  }

  predicate PlainAt(l: Level) {
    l.aonBuys == [] && l.aonSells == [] && PlainChain(l.limits)
  }

  lemma PlainHere(book: seq<Level>, p: nat)
    requires PlainBook(book) && p < |book|
    ensures PlainAt(book[p])
  {
  }

  lemma PlainStill(book: seq<Level>, bids: bool, onSide: bool, p: nat, size: nat)
    requires PlainBook(book) && p < |book| && size > 0
    ensures PlainBook(book[p := HitLevel(book[p], bids, onSide, p, size).level])
  {
    HitLevelPlain(book[p], bids, onSide, p, size);
    hide HitLevel;
  }

  lemma LevelLook(l: Level, orders: map<nat, Linked.Order>, bids: bool, onSide: bool, p: nat, gone: set<nat>, size: nat)
    requires PlainAt(l) && (forall b :: b in l.limits ==> b.id in orders && b.sz > 0)
    requires (forall x :: x in orders ==> orders[x].cond.Free?) && gone <= {0} && 0 !in orders
    ensures var h := HitLevel(l, bids, onSide, p, size);
      var r := if onSide then LookChain(l.limits, orders, gone, p, size) else Foretold([], size, gone);
      h.fills == r.fills && h.left == r.left && r.gone <= {0}
  {
    assert HitAons([], p, size) == Hit([], [], [], size);
    LookChainFree(l.limits, orders, gone, p, size);
    hide LookChain;
    assert [] + HitLimits(l.limits, p, size).fills == HitLimits(l.limits, p, size).fills;
    assert l.limits == [] ==> HitLimits(l.limits, p, size) == Hit([], [], [], size);
    hide HitLimits;
  }

  /** Looking out over a book in which nothing is linked foretells the plain match. */
  lemma {:induction false} LookFree(book0: seq<Level>, book: seq<Level>, orders: map<nat, Linked.Order>, bids: bool,
          inside: nat, p: nat, limit: nat, gone: set<nat>, size: nat)
    requires OnBook(|book|, bids, p, limit) && |book0| == |book| && PlainBook(book)
    requires forall r :: 0 < r < |book| && Beyond(bids, p, r) ==> book[r] == book0[r]
    requires forall r, b :: 0 <= r < |book0| && b in book0[r].limits ==> b.id in orders && b.sz > 0
    requires (forall x :: x in orders ==> orders[x].cond.Free?) && gone <= {0} && 0 !in orders
    ensures var l := Look(book0, orders, bids, inside, p, limit, gone, size);
      var m := Match(book, bids, inside, p, limit, size);
      l.fills == m.fills && l.left == m.left
    decreases if bids then p else |book| - p
  {
    if size != 0 && InsideOf(bids, p, limit) {
      hide HitLevel, LookChain, PlainBook;
      var onSide := OnSide(bids, p, inside);
      var h := HitLevel(book[p], bids, onSide, p, size);
      assert PlainBook(book[p := h.level]) by {
        PlainStill(book, bids, onSide, p, size);
      }
      assert PlainAt(book[p]) by {
        PlainHere(book, p);
      }
      LevelLook(book[p], orders, bids, onSide, p, gone, size);
      var l := if onSide then LookChain(book[p].limits, orders, gone, p, size) else Foretold([], size, gone);
      LookFree(book0, book[p := h.level], orders, bids, inside, Next(bids, p), limit, l.gone, h.left);
    }
  }

  /** No stop is linked to anything. */
  ghost predicate StopsFree(s: Linked.State) {
    forall x :: x in s.orders && s.orders[x].stop ==> s.orders[x].cond.Free?
  }

  /** No stop is linked, and the stop windows are those of f. */
  ghost predicate Loose(w: Whole, f: Floor) {
    && Fine(w) && StopsFree(w.s) && w.f.lowBuyStop == f.lowBuyStop && w.f.highSellStop == f.highSellStop
  }

  /** No window shrinks when x, which is no stop, is pulled. */
  lemma ShutNone(w: Whole, book: seq<Level>, x: nat)
    requires Fine(w) && |book| == |w.f.book| && (x in w.s.orders ==> !w.s.orders[x].stop)
    ensures Shut(w.f, book, x) == w.f.(book := book)
  {
    assert Agreed(w) by {
      FineAgreed(w);
    }
    hide Fine;
    forall p, b | 0 <= p < |w.f.book| && b in w.f.book[p].stops ensures b.id != x {
      assert Matches(w.s, b, true);
    }
    NoStop(w.f.book, x, |w.f.book|);
  }

  lemma FineLinks(w: Whole)
    requires Fine(w)
    ensures 0 !in w.s.orders && Linked.Symmetric(w.s.orders)
  {
    hide Linked.Exclusive, Linked.Booked, Linked.Active, Linked.Positioned, Agreed;
  }

  lemma {:induction false} NoStop(book: seq<Level>, id: nat, n: nat)
    requires n <= |book| && forall p, b :: 0 <= p < |book| && b in book[p].stops ==> b.id != id
    ensures StopLevel(book, id, n) == 0
  {
    if n > 0 {
      NoStop(book, id, n - 1);
    }
  }

  /** Whom a fill pulls is no stop. */
  lemma StopsHit(s: Linked.State, id: nat, amount: nat)
    requires StopsFree(s) && Linked.CanHit(s, id, amount) && Linked.Symmetric(s.orders) && 0 !in s.orders
    ensures var p := Pulls(s.orders[id], amount); p in s.orders ==> !s.orders[p].stop
    ensures StopsFree(Linked.Hit(s, id, amount))
  {
    StopsHandled(Linked.Traded(s, id, amount), id, amount);
    hide Linked.Handled, Linked.Symmetric;
  }

  lemma StopsHandled(s: Linked.State, id: nat, amount: nat)
    requires StopsFree(s) && Linked.CanHit(s, id, amount)
    ensures StopsFree(Linked.Handled(s, id, amount))
  {
    if s.orders[id].cond.Exit? {
      StopsExit(s, id, amount);
    }
  }

  lemma StopsExit(s: Linked.State, id: nat, amount: nat)
    requires StopsFree(s) && Linked.CanHit(s, id, amount) && s.orders[id].cond.Exit?
    ensures StopsFree(Linked.Handled(s, id, amount))
  {
    hide Linked.Add;
  }

  lemma StopsTriggered(s: Linked.State, id: nat, market: bool)
    requires StopsFree(s) && Linked.CanTrigger(s, id)
    ensures StopsFree(Linked.Triggered(s, id, market)) && Pulls(s.orders[id], s.orders[id].sz) == 0
  {
  }

  lemma StrikeLoose(w: Whole, id: nat, amount: nat, f: Floor)
    requires Loose(w, f) && Linked.CanHit(w.s, id, amount)
    ensures Loose(Joint.Strike(w, id, amount), f)
  {
    hide Fine, Linked.Hit, StopsFree, Pulls, Linked.Symmetric;
    StrikeFine(w, id, amount);
    FineLinks(w);
    StopsHit(w.s, id, amount);
    ShutNone(w, Followed(w.f.book, Linked.Hit(w.s, id, amount).orders), Pulls(w.s.orders[id], amount));
  }

  lemma {:induction false} StrikeChainLoose(w: Whole, p: nat, size: nat, f: Floor)
    requires Loose(w, f) && p < |w.f.book|
    ensures Loose(StrikeChain(w, p, size).w, f)
    decreases size
  {
    hide Loose, Joint.Strike;
    var c := w.f.book[p].limits;
    if size != 0 && c != [] && Linked.CanHit(w.s, c[0].id, Min(size, c[0].sz)) {
      StrikeLoose(w, c[0].id, Min(size, c[0].sz), f);
      StrikeChainLoose(Joint.Strike(w, c[0].id, Min(size, c[0].sz)), p, size - Min(size, c[0].sz), f);
    }
  }

  lemma {:induction false} WalkLoose(w: Whole, bids: bool, inside: nat, p: nat, limit: nat, size: nat, f: Floor)
    requires Loose(w, f) && OnBook(|w.f.book|, bids, p, limit)
    ensures Loose(Walk(w, bids, inside, p, limit, size).w, f)
    decreases if bids then p else |w.f.book| - p
  {
    hide Loose, StrikeChain;
    if size != 0 && InsideOf(bids, p, limit) {
      if OnSide(bids, p, inside) {
        StrikeChainLoose(w, p, size, f);
        var h := StrikeChain(w, p, size);
        WalkLoose(h.w, bids, inside, Next(bids, p), limit, h.left, f);
      } else {
        WalkLoose(w, bids, inside, Next(bids, p), limit, size, f);
      }
    }
  }

  /** ... and the sell stop window ends as that of f. */
  ghost predicate LooseAbove(w: Whole, f: Floor) {
    Fine(w) && StopsFree(w.s) && w.f.highSellStop == f.highSellStop
  }

  lemma SpringLoose(w: Whole, b: Bundle, f: Floor)
    requires LooseAbove(w, f)
    ensures LooseAbove(Spring(w, b), f)
  {
    hide Fine, Linked.Triggered, StopsFree, Pulls, Linked.Symmetric;
    SpringFine(w, b);
    if Linked.CanTrigger(w.s, b.id) {
      var market := b.Stop? && b.limit == 0;
      FineLinks(w);
      StopsTriggered(w.s, b.id, market);
      ShutNone(w, Followed(w.f.book, Linked.Triggered(w.s, b.id, market).orders), 0);
    }
  }

  lemma {:induction false} SpringAllLoose(w: Whole, c: seq<Bundle>, f: Floor)
    requires LooseAbove(w, f)
    ensures LooseAbove(SpringAll(w, c), f)
    decreases |c|
  {
    hide LooseAbove, Spring;
    if c != [] {
      SpringLoose(w, c[0], f);
      SpringAllLoose(Spring(w, c[0]), c[1..], f);
    }
  }

  lemma {:induction false} UpLoose(w: Whole, p: nat, last: nat, f: Floor)
    requires LooseAbove(w, f)
    ensures LooseAbove(Up(w, p, last).w, f)
    decreases last + 1 - p
  {
    hide SpringAll, Fine;
    if p <= last && p < |w.f.book| {
      FreedFine(w, true, p);
      SpringAllLoose(w.(f := Freed(w.f, true, p)), w.f.book[p].stops, f);
      UpLoose(TakeLevel(w, true, p), p + 1, last, f);
    }
  }

  /** No order rests twice. */
  ghost predicate Once(book: seq<Level>) {
    forall r: nat, i: nat, b, q: nat, j: nat, c ::
      At(book, r, i, b) && At(book, q, j, c) && b.id == c.id ==> r == q && i == j
  }

  lemma OnceSeparate(w: Whole, bids: bool, inside: nat)
    requires Once(w.f.book) && AllFree(w.s)
    ensures Separate(w, bids, inside)
  {
  }

  lemma OnceStill(book: seq<Level>, book': seq<Level>)
    requires Once(book) && |book'| == |book| && forall r :: 0 <= r < |book| ==> book'[r].limits == book[r].limits
    ensures Once(book')
  {
    forall r: nat, i: nat, b, q: nat, j: nat, c | At(book', r, i, b) && At(book', q, j, c) && b.id == c.id
      ensures r == q && i == j
    {
      assert At(book, r, i, b) && At(book, q, j, c);
    }
  }

  /** Which levels are swept once a limit order has traded, if no stop is linked. */
  lemma EnteringSweeps(w: Whole, t: Ticket, base: nat, q: nat)
    requires |w.f.book| > 1 && Acceptable(t, base, |w.f.book|) && t.otype.LimitOrder? && InOrder(w) && StopsFree(w.s)
    ensures var r := Entering(w, t, base);
      Takes(r, q) <==> w.f.lowBuyStop <= q <= r.w.f.last || r.w.f.last <= q <= w.f.highSellStop
  {
    hide Walk, Up, Orderly, Linked.Inv, Agreed;
    var n := Numbered(w);
    var bids, p := !t.isBuy, LevelOf(t.limit, base);
    var inside := InsideLevel(n.f, bids);
    NumberedFine(w, 0, 0);
    WalkLoose(n, bids, inside, Outermost(bids, |n.f.book|), p, t.sz, n.f);
    var r := Entering(w, t, base);
    var r0 := Walk(n, bids, inside, Outermost(bids, |n.f.book|), p, t.sz);
    LastLoose(r0.w, r.w, n.f);
    UpLoose(r.w, r.w.f.lowBuyStop, r.w.f.last, n.f);
  }

  /** How far a limit order trades if nothing is linked. */
  lemma EnteringFree(w: Whole, t: Ticket, base: nat)
    requires |w.f.book| > 1 && Acceptable(t, base, |w.f.book|) && t.otype.LimitOrder? && InOrder(w)
    requires Once(w.f.book) && AllFree(w.s)
    ensures Entering(w, t, base).w.f.last == LastLevel(FillsOf(w.f, t, base), w.f.last)
  {
    hide Walk, Look, Match, Once, Orderly, Linked.Inv, Agreed;
    var bids, p := !t.isBuy, LevelOf(t.limit, base);
    var inside := InsideLevel(w.f, bids);
    OnceSeparate(w, bids, inside);
    LookoutIs(w, t, base);
    KnownOrders(w);
    LookFree(w.f.book, w.f.book, w.s.orders, bids, inside, Outermost(bids, |w.f.book|), p, {}, t.sz);
  }

  lemma LastLoose(w: Whole, w': Whole, f: Floor)
    requires Loose(w, f) && w' == w.(f := w.f.(last := w'.f.last))
    ensures LooseAbove(w', f)
  {
    hide Linked.Inv, Agreed;
    FineAgreed(w);
    SameAgreed(w, w');
  }

  lemma KnownOrders(w: Whole)
    requires InOrder(w)
    ensures (forall r, b :: 0 <= r < |w.f.book| && b in w.f.book[r].limits ==> b.id in w.s.orders && b.sz > 0)
    ensures 0 !in w.s.orders && PlainBook(w.f.book)
  {
    SizedBook(w);
    hide Linked.Symmetric, Linked.Exclusive, Linked.Booked, Linked.Active, Linked.Positioned, AllSized, IdsUpTo, Snug;
  }

  /** Where nothing is linked yet the condition is the one for a book without links. */
  lemma NoLinks(w: Whole, first: Ticket, second: Ticket, base: nat)
    requires |w.f.book| > 1 && AcceptablePair(first, second, base, |w.f.book|) && InOrder(w)
    requires Once(w.f.book) && AllFree(w.s)
    ensures Joint.Spoils(w, first, second, base) <==> OneCancels.Spoils(w.f, first, second, base)
  {
    if StopTicket(first) && second.otype.LimitOrder? {
      hide InOrder, Once, AllFree, StopsFree, Standing, Joint.Enters, OneCancels.Enters, Entering, Takes, Looked,
        Match, Orderly, StopRested;
      StopFirst(w, first, base);
      var w1 := Joint.Enters(w, first, base);
      StillLoose(w, first, base);
      EnteringFree(w1, second, base);
      FreeStops(w1.s);
      EnteringSweeps(w1, second, base, LevelOf(first.stop, base));
      LooksSame(w, first, second, base);
      FloorsMeet(w, w1.f, first, second, base);
    }
  }

  lemma FreeStops(s: Linked.State)
    requires AllFree(s)
    ensures StopsFree(s)
  {
  }

  lemma StillLoose(w: Whole, first: Ticket, base: nat)
    requires |w.f.book| > 1 && Acceptable(first, base, |w.f.book|) && StopTicket(first) && InOrder(w)
    requires Once(w.f.book) && AllFree(w.s)
    ensures Once(Joint.Enters(w, first, base).f.book) && AllFree(Joint.Enters(w, first, base).s)
  {
    hide Once, Fine, PlainBook, AllSized, IdsUpTo, Entered, Snug, Standing, Joint.Enters;
    StopFirst(w, first, base);
    StopEnters(w.f, first, base);
    OnceStill(w.f.book, Joint.Enters(w, first, base).f.book);
  }

  lemma FloorsMeet(w: Whole, g: Floor, first: Ticket, second: Ticket, base: nat)
    requires |w.f.book| > 1 && AcceptablePair(first, second, base, |w.f.book|) && InOrder(w)
    requires StopTicket(first) && second.otype.LimitOrder? && g == OneCancels.Enters(w.f, first, base).f
    ensures |g.book| == |w.f.book|
    ensures var q := LevelOf(first.stop, base);
      var last := LastLevel(FillsOf(g, second, base), g.last);
      (g.lowBuyStop <= q <= last || last <= q <= g.highSellStop) <==>
        Taken(w.f, first.isBuy, q, Reached(w.f, !second.isBuy, LevelOf(second.limit, base), second.sz))
  {
    hide Fine, PlainBook, AllSized, IdsUpTo, Entered, Snug, Match, Looked, StopRested;
    var q := LevelOf(first.stop, base);
    StopEnters(w.f, first, base);
    StopWindows(w.f, q, StopBundle(first, w.f.lastId + 1));
    SameLook(w.f, g, second, base);
  }

  /* ---- a pair, by looking ---- */

  /** The first order is a stop and the second a limit order that, by a look at the book, trades on
      entry, so far that the check for stops takes out the level of the first. */
  predicate LooksSpoilt(w: Whole, first: Ticket, second: Ticket, base: nat)
    requires |w.f.book| > 1 && AcceptablePair(first, second, base, |w.f.book|)
  {
    StopTicket(first) && second.otype.LimitOrder? &&
      var bids := !second.isBuy;
      var p, from := LevelOf(second.limit, base), Outermost(bids, |w.f.book|);
      var l := Look(w.f.book, w.s.orders, bids, InsideLevel(w.f, bids), from, p, {}, second.sz);
      l.left < second.sz && Taken(w.f, first.isBuy, LevelOf(first.stop, base), LastLevel(l.fills, w.f.last))
  }

  /** Looking depends on the limit chains and the orders in them. */
  lemma {:induction false} LookChainSame(c: seq<Bundle>, orders: map<nat, Linked.Order>,
          orders': map<nat, Linked.Order>, gone: set<nat>, p: nat, size: nat)
    requires forall b :: b in c ==> b.id in orders && b.id in orders' && orders'[b.id] == orders[b.id]
    ensures LookChain(c, orders', gone, p, size) == LookChain(c, orders, gone, p, size)
  {
    if c != [] && size != 0 {
      assert c[0] in c && forall b :: b in c[1..] ==> b in c;
      if c[0].id in gone {
        LookChainSame(c[1..], orders, orders', gone, p, size);
      } else {
        var amount := Min(size, c[0].sz);
        LookChainSame(c[1..], orders, orders', gone + {Pulls(orders[c[0].id], amount)}, p, size - amount);
      }
    }
  }

  lemma {:induction false} LookSame(book: seq<Level>, book': seq<Level>, orders: map<nat, Linked.Order>,
          orders': map<nat, Linked.Order>, bids: bool, inside: nat, p: nat, limit: nat, gone: set<nat>, size: nat)
    requires OnBook(|book|, bids, p, limit) && |book'| == |book|
    requires forall r :: 0 <= r < |book| ==> book'[r].limits == book[r].limits
    requires forall r, b :: 0 <= r < |book| && b in book[r].limits ==>
      b.id in orders && b.id in orders' && orders'[b.id] == orders[b.id]
    ensures Look(book', orders', bids, inside, p, limit, gone, size) ==
      Look(book, orders, bids, inside, p, limit, gone, size)
    decreases if bids then p else |book| - p
  {
    if size != 0 && InsideOf(bids, p, limit) {
      hide LookChain;
      if OnSide(bids, p, inside) {
        LookChainSame(book[p].limits, orders, orders', gone, p, size);
        var h := LookChain(book[p].limits, orders, gone, p, size);
        LookSame(book, book', orders, orders', bids, inside, Next(bids, p), limit, h.gone, h.left);
      } else {
        LookSame(book, book', orders, orders', bids, inside, Next(bids, p), limit, gone, size);
      }
    }
  }

  /** As long as no stop is linked, whether a pair is spoilt is told by looking. */
  lemma SpoiltByLook(w: Whole, first: Ticket, second: Ticket, base: nat)
    requires |w.f.book| > 1 && AcceptablePair(first, second, base, |w.f.book|) && InOrder(w) && StopsFree(w.s)
    requires Separate(w, !second.isBuy, InsideLevel(w.f, !second.isBuy))
    ensures Joint.Spoils(w, first, second, base) <==> LooksSpoilt(w, first, second, base)
  {
    if StopTicket(first) && second.otype.LimitOrder? {
      hide InOrder, StopsFree, Standing, Separate, Joint.Enters, OneCancels.Enters, Entering, Takes, Looked, Orderly,
        StopRested, Look, Agreed, Fine, Taken, Contingent.Rest, Contingent.NewId;
      StopFirst(w, first, base);
      var w1 := Joint.Enters(w, first, base);
      StopStays(w, first, second, base);
      LookoutIs(w1, second, base);
      EnteringSweeps(w1, second, base, LevelOf(first.stop, base));
      SizeTrades(w1, second, base);
      LooksSame(w, first, second, base);
    }
  }

  /** Size is left over exactly where looking at the chains says so. */
  lemma SizeTrades(w: Whole, t: Ticket, base: nat)
    requires |w.f.book| > 1 && Acceptable(t, base, |w.f.book|) && t.otype.LimitOrder? && InOrder(w)
    ensures Entering(w, t, base).left < t.sz <==> Looked(w.f, !t.isBuy, LevelOf(t.limit, base), t.sz) < t.sz
  {
    hide Fine, Orderly, Entering, Looked, Answer, Routing.Routed, Joint.Checked, FillsOf;
    EnteringRouted(w, t, base);
    assert Agreed(w) by {
      FineAgreed(w);
    }
    Trades(w, t, base);
  }

  /** A stop that comes to rest first makes no difference to looking, and widens its window. */
  lemma StopStays(w: Whole, first: Ticket, second: Ticket, base: nat)
    requires |w.f.book| > 1 && AcceptablePair(first, second, base, |w.f.book|) && InOrder(w) && StopsFree(w.s)
    requires StopTicket(first) && second.otype.LimitOrder?
    requires Separate(w, !second.isBuy, InsideLevel(w.f, !second.isBuy))
    ensures var w1 := Joint.Enters(w, first, base);
      var bids := !second.isBuy;
      var p, from := LevelOf(second.limit, base), Outermost(bids, |w.f.book|);
      && StopsFree(w1.s) && Separate(w1, bids, InsideLevel(w1.f, bids)) && w1.f.last == w.f.last
      && Look(w1.f.book, w1.s.orders, bids, InsideLevel(w1.f, bids), from, p, {}, second.sz) ==
         Look(w.f.book, w.s.orders, bids, InsideLevel(w.f, bids), from, p, {}, second.sz)
      && forall last: nat :: (w1.f.lowBuyStop <= LevelOf(first.stop, base) <= last
          || last <= LevelOf(first.stop, base) <= w1.f.highSellStop) <==>
           Taken(w.f, first.isBuy, LevelOf(first.stop, base), last)
  {
    hide Fine, Orderly, Joint.Enters, OneCancels.Enters, Standing, Look, Taken, Separate;
    var w1 := Joint.Enters(w, first, base);
    StopFirst(w, first, base);
    StopEnters(w.f, first, base);
    StopWindows(w.f, LevelOf(first.stop, base), StopBundle(first, w.f.lastId + 1));
    KnownOrders(w);
    IdsGiven(w);
    SeparateStays(w, w1, !second.isBuy);
    var bids := !second.isBuy;
    LookSame(w.f.book, w1.f.book, w.s.orders, w1.s.orders, bids, InsideLevel(w.f, bids), Outermost(bids, |w.f.book|),
      LevelOf(second.limit, base), {}, second.sz);
  }

  lemma IdsGiven(w: Whole)
    requires InOrder(w)
    ensures w.s.lastId + 1 !in w.s.orders
  {
    hide Linked.Symmetric, Linked.Exclusive, Linked.Booked, Linked.Active, Linked.Positioned, Agreed, Orderly;
  }

  lemma SeparateStays(w: Whole, w1: Whole, bids: bool)
    requires Separate(w, bids, InsideLevel(w.f, bids)) && |w1.f.book| == |w.f.book|
    requires InsideLevel(w1.f, bids) == InsideLevel(w.f, bids)
    requires forall r :: 0 <= r < |w.f.book| ==> w1.f.book[r].limits == w.f.book[r].limits
    requires forall x :: x in w1.s.orders && w1.s.orders[x].cond.Entry? ==>
      x in w.s.orders && w1.s.orders[x] == w.s.orders[x]
    ensures Separate(w1, bids, InsideLevel(w1.f, bids))
  {
    forall r: nat, i: nat, b | At(w1.f.book, r, i, b) ensures At(w.f.book, r, i, b) {
    }
  }
}
