/** Orders and pairs that enter a book of linked orders keep book and links in order. */
module Upkeep {
  import opened Ladder
  import opened Matcher
  import opened Priority
  import opened Desk
  import opened Reference
  import opened Plain
  import opened OneCancels
  import opened Joint
  import opened Lookout
  import Linked
  import Routing
  import Contingent
  import Windows

  /** The all-or-none chains of a book are empty. */
  predicate NoAonChains(book: seq<Level>) {
    forall r :: 0 <= r < |book| ==> book[r].aonBuys == [] && book[r].aonSells == []
  }

  lemma {:induction false} StrikeChainAons(w: Whole, p: nat, size: nat)
    requires p < |w.f.book| && NoAonChains(w.f.book)
    ensures NoAonChains(StrikeChain(w, p, size).w.f.book)
    decreases size
  {
    hide Linked.Hit, Shut;
    var c := w.f.book[p].limits;
    if size != 0 && c != [] && Linked.CanHit(w.s, c[0].id, Min(size, c[0].sz)) {
      StrikeChainAons(Joint.Strike(w, c[0].id, Min(size, c[0].sz)), p, size - Min(size, c[0].sz));
    }
  }

  lemma {:induction false} WalkAons(w: Whole, bids: bool, inside: nat, p: nat, limit: nat, size: nat)
    requires OnBook(|w.f.book|, bids, p, limit) && NoAonChains(w.f.book)
    ensures NoAonChains(Walk(w, bids, inside, p, limit, size).w.f.book)
    decreases if bids then p else |w.f.book| - p
  {
    hide StrikeChain, NoAonChains;
    if size != 0 && InsideOf(bids, p, limit) {
      if OnSide(bids, p, inside) {
        StrikeChainAons(w, p, size);
        var h := StrikeChain(w, p, size);
        WalkAons(h.w, bids, inside, Next(bids, p), limit, h.left);
      } else {
        WalkAons(w, bids, inside, Next(bids, p), limit, size);
      }
    }
  }

  lemma {:induction false} SpringAllAons(w: Whole, c: seq<Bundle>)
    requires NoAonChains(w.f.book)
    ensures NoAonChains(SpringAll(w, c).f.book)
    decreases |c|
  {
    hide Linked.Triggered, Shut;
    if c != [] {
      SpringAllAons(Spring(w, c[0]), c[1..]);
    }
  }

  lemma LevelAons(w: Whole, buys: bool, p: nat)
    requires NoAonChains(w.f.book) && p < |w.f.book|
    ensures NoAonChains(TakeLevel(w, buys, p).f.book)
  {
    hide SpringAll;
    SpringAllAons(w.(f := Freed(w.f, buys, p)), w.f.book[p].stops);
  }

  lemma {:induction false} UpAons(w: Whole, p: nat, last: nat)
    requires NoAonChains(w.f.book)
    ensures NoAonChains(Up(w, p, last).w.f.book)
    decreases last + 1 - p
  {
    hide TakeLevel, NoAonChains;
    if p <= last && p < |w.f.book| {
      LevelAons(w, true, p);
      UpAons(TakeLevel(w, true, p), p + 1, last);
    }
  }

  lemma {:induction false} DownAons(w: Whole, p: nat, last: nat)
    requires NoAonChains(w.f.book)
    ensures NoAonChains(Down(w, p, last).w.f.book)
    decreases p
  {
    hide TakeLevel, NoAonChains;
    if p >= last && p != 0 && p < |w.f.book| {
      LevelAons(w, false, p);
      DownAons(TakeLevel(w, false, p), p - 1, last);
    }
  }

  /** A book whose orders the linked orders know is orderly. */
  lemma MadeOrderly(w: Whole)
    requires Fine(w) && NoAonChains(w.f.book) && w.f.lastId == w.s.lastId && !w.f.check && Snug(w.f)
    requires 0 < w.f.ask <= |w.f.book| && w.f.highSellStop < |w.f.book|
    ensures InOrder(w)
  {
    hide Linked.Exclusive, Linked.Booked, Linked.Active, Linked.Positioned, Snug;
    assert forall x :: x in w.s.orders ==> x <= w.s.lastId && w.s.orders[x].sz > 0;
    hide Linked.Symmetric, Linked.Numbered;
    forall r, k, b | 0 <= r < |w.f.book| && b in Chain(w.f.book[r], k) ensures b.id <= w.f.lastId && b.sz > 0 {
      assert b in w.f.book[r].limits || b in w.f.book[r].stops;
      assert Matches(w.s, b, k == Stops);
    }
    assert AllSized(w.f.book);
  }

  /** Once a limit order has walked through the book and stops were checked. */
  lemma EnteredFine(w: Whole, t: Ticket, base: nat)
    requires |w.f.book| > 1 && Acceptable(t, base, |w.f.book|) && t.otype.LimitOrder? && InOrder(w)
    ensures var r := Entering(w, t, base);
      var w1 := if r.fills == [] then r.w else Joint.Checked(r.w).w;
      Fine(w1) && NoAonChains(w1.f.book)
  {
    hide Fine, Walk, Up, Down, Standing, Routing.Onward, NoAonChains, AllSized, IdsUpTo, Snug, LastLevel;
    var n := Numbered(w);
    var bids, p := !t.isBuy, LevelOf(t.limit, base);
    var inside := InsideLevel(n.f, bids);
    NumberedFine(w, 0, 0);
    PlainAons(w.f.book);
    WalkKept(n, bids, inside, Outermost(bids, |n.f.book|), p, t.sz, 0, 0);
    WalkAons(n, bids, inside, Outermost(bids, |n.f.book|), p, t.sz);
    WalkMakers(n, bids, inside, Outermost(bids, |n.f.book|), p, t.sz, 0);
    var r0 := Walk(n, bids, inside, Outermost(bids, |n.f.book|), p, t.sz);
    var r := Entering(w, t, base);
    LastFine(r0.w, r.w);
    if r.fills != [] {
      assert r.w.f.last > 0 by {
        assert r.fills[|r.fills| - 1] in r0.fills;
        LastIs(r.fills, w.f.last);
      }
      var low, last := r.w.f.lowBuyStop, r.w.f.last;
      UpSprings(r.w, low, last, 0, 0);
      UpAons(r.w, low, last);
      var u := Up(r.w, low, last).w;
      DownSprings(u, u.f.highSellStop, last, 0, 0);
      DownAons(u, u.f.highSellStop, last);
    }
  }

  lemma LastIs(fills: seq<Fill>, last: nat)
    requires fills != []
    ensures LastLevel(fills, last) == fills[|fills| - 1].level
  {
  }

  lemma PlainAons(book: seq<Level>)
    requires PlainBook(book)
    ensures NoAonChains(book)
  {
  }

  lemma LastFine(w: Whole, w': Whole)
    requires Fine(w) && w' == w.(f := w.f.(last := w'.f.last))
    ensures Fine(w')
  {
    hide Linked.Inv, Agreed;
    FineAgreed(w);
    SameAgreed(w, w');
  }

  /** The floor once a limit order has traded, before what is left of it rests. */
  function AfterTrades(w: Whole, t: Ticket, base: nat): (r: Whole)
    requires |w.f.book| > 1 && Acceptable(t, base, |w.f.book|) && t.otype.LimitOrder?
    ensures |r.f.book| == |w.f.book|
  {
    var r := Entering(w, t, base);
    if r.fills == [] then r.w else Joint.Checked(r.w).w
  }

  lemma EntersLimit(w: Whole, t: Ticket, base: nat)
    requires |w.f.book| > 1 && Acceptable(t, base, |w.f.book|) && t.otype.LimitOrder?
    ensures var w1 := AfterTrades(w, t, base);
      var f := w1.f.(bid := Outward(w1.f.book, true, w1.f.bid), ask := Outward(w1.f.book, false, w1.f.ask));
      var r := Joint.Enters(w, t, base);
      var left := Entering(w, t, base).left;
      var g := if left == 0 then f
        else LimitRested(f, t.isBuy, LevelOf(t.limit, base), Resting(w.s.lastId + 1, left, false));
      r.f == g.(lastId := r.s.lastId)
  {
    hide Entering, Joint.Checked, Outward, LimitRested, Contingent.Injected, Answer;
  }

  lemma AfterSame(w: Whole, t: Ticket, base: nat)
    requires |w.f.book| > 1 && Acceptable(t, base, |w.f.book|) && t.otype.LimitOrder?
    ensures var f := AfterTrades(w, t, base).f;
      && f.check == w.f.check && f.bid == w.f.bid && f.ask == w.f.ask
      && (w.f.highSellStop < |w.f.book| ==> f.highSellStop < |f.book|)
  {
    hide Walk, Up, Down;
  }

  lemma OrdersAfter(w: Whole, t: Ticket, base: nat)
    requires |w.f.book| > 1 && Acceptable(t, base, |w.f.book|) && t.otype.LimitOrder? && InOrder(w)
    ensures var w1 := AfterTrades(w, t, base);
      var s := Joint.Enters(w, t, base).s;
      var left := Entering(w, t, base).left;
      var id := w.s.lastId + 1;
      && Linked.Inv(s, 0, 0) && id !in w1.s.orders
      && s.orders == if left == 0 then w1.s.orders else w1.s.orders[id := Linked.Order(false, left, Linked.Free)]
  {
    hide Linked.Inv, Agreed, Orderly, Entering, Joint.Checked, Answer, Contingent.Injected, Contingent.After,
      Contingent.Fresh, Linked.Potential, Joint.Enters, Routing.Routed, Routing.Onward;
    var id := w.s.lastId + 1;
    var call := Answer(w, t, base);
    EnteringRouted(w, t, base);
    EntersIs(w, t, base);
    Contingent.NewIdOk(w.s, 0, 0);
    Contingent.InjectedOk(Contingent.NewId(w.s), id, TermsOf(t), call);
    InjectedOrders(w.s, id, TermsOf(t), call);
    Routing.RoutedOk(Contingent.NewId(w.s), t.sz, call, 0, 0);
    NewNotThere(Contingent.NewId(w.s), Routing.Routed(Contingent.NewId(w.s), t.sz, call).0, id);
    if Entering(w, t, base).fills == [] {
      IdleSame(w, t, base);
    }
  }

  lemma NewNotThere(s: Linked.State, s': Linked.State, id: nat)
    requires Contingent.Fresh(s, id) && Routing.Onward(s, s')
    ensures id !in s'.orders
  {
  }

  lemma IdleSame(w: Whole, t: Ticket, base: nat)
    requires |w.f.book| > 1 && Acceptable(t, base, |w.f.book|) && t.otype.LimitOrder? && InOrder(w)
    requires Entering(w, t, base).fills == []
    ensures Entering(w, t, base).left == t.sz
  {
    hide Orderly, Fine, Walk;
    assert Agreed(w) by {
      FineAgreed(w);
    }
    Trades(w, t, base);
  }

  lemma LimitInOrder(w: Whole, t: Ticket, base: nat)
    requires |w.f.book| > 1 && Acceptable(t, base, |w.f.book|) && t.otype.LimitOrder? && InOrder(w)
    ensures InOrder(Joint.Enters(w, t, base))
  {
    hide Fine, NoAonChains, Entering, Joint.Checked, AllSized, IdsUpTo, PlainBook, Outward, LimitRested, Joint.Enters,
      Snug, AfterTrades, Linked.Inv;
    var p := LevelOf(t.limit, base);
    var w1 := AfterTrades(w, t, base);
    var left := Entering(w, t, base).left;
    AfterIs(w, t, base);
    EnteredFine(w, t, base);
    EntersLimit(w, t, base);
    AfterSame(w, t, base);
    OrdersAfter(w, t, base);
    SettledSnug(w1.f, w.f);
    var f := w1.f.(bid := Outward(w1.f.book, true, w1.f.bid), ask := Outward(w1.f.book, false, w1.f.ask));
    var r := Joint.Enters(w, t, base);
    if left == 0 {
      SameOrders(w1, r);
      SnugStill(f, r.f);
      MadeOrderly(r);
    } else {
      RestingOrderly(w1, f, r.s, t.isBuy, p, Resting(w.s.lastId + 1, left, false));
    }
  }

  lemma SnugStill(f: Floor, g: Floor)
    requires Snug(f) && g == f.(lastId := g.lastId)
    ensures Snug(g)
  {
  }

  lemma AfterIs(w: Whole, t: Ticket, base: nat)
    requires |w.f.book| > 1 && Acceptable(t, base, |w.f.book|) && t.otype.LimitOrder?
    ensures var r := Entering(w, t, base);
      AfterTrades(w, t, base) == if r.fills == [] then r.w else Joint.Checked(r.w).w
  {
  }

  /** A limit or stop order that enters, trades or not, triggers stops or not, keeps book and links
      in order. */
  lemma EntersInOrder(w: Whole, t: Ticket, base: nat)
    requires |w.f.book| > 1 && Acceptable(t, base, |w.f.book|) && !t.otype.Market? && InOrder(w)
    ensures InOrder(Joint.Enters(w, t, base))
  {
    if t.otype.LimitOrder? {
      LimitInOrder(w, t, base);
    } else {
      StopFirst(w, t, base);
    }
  }

  /** What entering a limit order makes of the orders that matching has left. */
  lemma InjectedOrders(s: Linked.State, id: nat, terms: Linked.Terms, call: Linked.Call)
    requires terms.kind.Limit?
    ensures var r := Routing.Routed(Contingent.NewId(s), terms.sz, call);
      var i := Contingent.Injected(Contingent.NewId(s), id, terms, call);
      && !i.thrown && i.filled == r.1
      && i.s.orders == (if r.1 == terms.sz then r.0.orders
                        else r.0.orders[id := Linked.Order(false, terms.sz - r.1, Linked.Free)])
  {
    hide Routing.Routed;
  }

  lemma SettledSnug(f: Floor, g: Floor)
    requires f.bid == g.bid && f.ask == g.ask && |f.book| == |g.book| && 0 < g.ask <= |g.book| && Snug(g)
    ensures var bid, ask := Outward(f.book, true, f.bid), Outward(f.book, false, f.ask);
      Snug(f.(bid := bid, ask := ask)) && 0 < ask <= |f.book|
  {
    OutwardStops(f.book, true, f.bid);
    OutwardStops(f.book, false, f.ask);
  }

  lemma {:induction false} OutwardStops(book: seq<Level>, bids: bool, p: nat)
    requires if bids then p < |book| || p == 0 else 0 < p <= |book|
    ensures var q := Outward(book, bids, p);
      if bids then q <= p && (q > 0 ==> book[q].limits != [])
        else p <= q <= |book| && (q < |book| ==> book[q].limits != [])
    decreases if bids then p else |book| - p
  {
    if bids {
      if p != 0 && !(p < |book| && book[p].limits != []) {
        OutwardStops(book, bids, p - 1);
      }
    } else if p < |book| && book[p].limits == [] {
      OutwardStops(book, bids, p + 1);
    }
  }

  lemma SameOrders(w: Whole, w': Whole)
    requires Fine(w) && w'.f.book == w.f.book && w'.s.orders == w.s.orders && Linked.Inv(w'.s, 0, 0)
    ensures Fine(w')
  {
    hide Linked.Inv, Agreed;
    FineAgreed(w);
    SameAgreed(w, w');
  }

  /** What is left of a limit order rests. */
  lemma RestingOrderly(w: Whole, f: Floor, s: Linked.State, isBuy: bool, p: nat, b: Bundle)
    requires Fine(w) && NoAonChains(w.f.book) && 0 < p < |w.f.book| && b.Resting? && !b.aon
    requires f == w.f.(bid := f.bid, ask := f.ask) && Snug(f) && 0 < f.ask <= |f.book|
    requires !f.check && f.highSellStop < |f.book|
    requires b.id !in w.s.orders && s.orders == w.s.orders[b.id := Linked.Order(false, b.sz, Linked.Free)]
    requires Linked.Inv(s, 0, 0)
    ensures InOrder(Whole(LimitRested(f, isBuy, p, b).(lastId := s.lastId), s))
  {
    var g := LimitRested(f, isBuy, p, b).(lastId := s.lastId);
    hide Linked.Inv;
    assert forall r, x :: 0 <= r < |w.f.book| && (x in w.f.book[r].stops || x in w.f.book[r].limits) ==>
      x.id != b.id by {
      KnownHere(w);
    }
    LimitAgrees(w, s, p, b, g);
    assert g.book[p].limits == w.f.book[p].limits + [b];
    hide Agreed;
    MadeOrderly(Whole(g, s));
  }

  lemma KnownHere(w: Whole)
    requires Fine(w)
    ensures forall r, x :: 0 <= r < |w.f.book| && (x in w.f.book[r].stops || x in w.f.book[r].limits) ==>
      x.id in w.s.orders
  {
    hide Linked.Inv;
    forall r, x | 0 <= r < |w.f.book| && (x in w.f.book[r].stops || x in w.f.book[r].limits)
      ensures x.id in w.s.orders {
      assert Matches(w.s, x, x in w.f.book[r].stops);
    }
  }

  /** So does a pair, linked or with its first order pulled. */
  lemma PairInOrder(w: Whole, first: Ticket, second: Ticket, base: nat)
    requires |w.f.book| > 1 && AcceptablePair(first, second, base, |w.f.book|) && InOrder(w)
    ensures InOrder(PairEnters(w, first, second, base))
  {
    hide Linked.Inv, Agreed, NoAonChains, Answer, Contingent.Injected, AllSized, IdsUpTo, PlainBook, Outward, Snug,
      Shut, Joint.Enters, Contingent.Spoils, Linked.Potential, Contingent.After, Contingent.Fresh;
    var w1 := Joint.Enters(w, first, base);
    EntersIs(w, first, base);
    EntersInOrder(w, first, base);
    Contingent.OcoEnteredOk(w.s, TermsOf(first), TermsOf(second), false, Answer(w, first, base),
      Answer(w1, second, base));
    if Contingent.Injected(Contingent.NewId(w.s), w.s.lastId + 1, TermsOf(first), Answer(w, first, base)).filled == 0 {
      EntersIs(w1, second, base);
      EntersInOrder(w1, second, base);
      var w2 := Joint.Enters(w1, second, base);
      var r := PairEnters(w, first, second, base);
      var id := w.s.lastId + 1;
      PairFewer(w, first, second, base);
      FollowedOrderly(w2, r.s, r.f);
    }
  }

  /** What a pair whose first order did not trade comes to for the linked orders. */
  lemma PairIs(w: Whole, first: Ticket, second: Ticket, base: nat)
    requires |w.f.book| > 1 && AcceptablePair(first, second, base, |w.f.book|)
    requires var id := w.s.lastId + 1;
      Contingent.Injected(Contingent.NewId(w.s), id, TermsOf(first), Answer(w, first, base)).filled == 0
    ensures var w1 := Joint.Enters(w, first, base);
      PairEnters(w, first, second, base).s ==
        Contingent.SecondEntered(w1.s, w.s.lastId + 1, TermsOf(second), false, Answer(w1, second, base)).s
  {
    hide Answer, Contingent.Injected, Joint.Enters, Contingent.SecondEntered, Shut, Outward, Followed;
    EntersIs(w, first, base);
  }

  lemma SecondFewer(s: Linked.State, id1: nat, second: Linked.Terms, c: Linked.Call)
    ensures var i := Contingent.Injected(Contingent.NewId(s), s.lastId + 1, second, c);
      var r := Contingent.SecondEntered(s, id1, second, false, c).s;
      Fewer(i.s, r) && r.lastId == i.s.lastId
  {
    hide Contingent.Injected;
  }

  lemma PairFewer(w: Whole, first: Ticket, second: Ticket, base: nat)
    requires |w.f.book| > 1 && AcceptablePair(first, second, base, |w.f.book|)
    requires var id := w.s.lastId + 1;
      Contingent.Injected(Contingent.NewId(w.s), id, TermsOf(first), Answer(w, first, base)).filled == 0
    ensures var w2 := Joint.Enters(Joint.Enters(w, first, base), second, base);
      var r := PairEnters(w, first, second, base);
      Fewer(w2.s, r.s) && r.s.lastId == w2.s.lastId
  {
    hide Answer, Contingent.Injected, Joint.Enters, Contingent.SecondEntered, Fewer, PairEnters;
    var w1 := Joint.Enters(w, first, base);
    PairIs(w, first, second, base);
    EntersIs(w1, second, base);
    SecondFewer(w1.s, w.s.lastId + 1, TermsOf(second), Answer(w1, second, base));
  }

  lemma FollowedOrderly(w: Whole, s: Linked.State, g: Floor)
    requires InOrder(w) && Fewer(w.s, s) && s.lastId == w.s.lastId && Linked.Inv(s, 0, 0)
    requires g.book == Followed(w.f.book, s.orders) && g.check == w.f.check && g.highSellStop < |g.book|
    requires g.lastId == w.f.lastId
    requires g.bid == Outward(g.book, true, w.f.bid) && g.ask == Outward(g.book, false, w.f.ask)
    ensures InOrder(Whole(g, s))
  {
    hide Linked.Inv, Fewer, AllSized, IdsUpTo, Outward;
    FollowedAgrees(w, s);
    SameAgreed(Whole(w.f.(book := g.book), s), Whole(g, s));
    SettledSnug(w.f.(book := g.book), w.f);
    MadeOrderly(Whole(g, s));
  }

  /* ---- sessions ---- */

  /** What enters: a limit or stop order, or a pair of which one cancels the other. */
  datatype Entry = One(t: Ticket) | Two(first: Ticket, second: Ticket)

  predicate Enterable(e: Entry, base: nat, n: nat) {
    match e
    case One(t) => Acceptable(t, base, n) && !t.otype.Market?
    case Two(first, second) => AcceptablePair(first, second, base, n)
  }

  /** Entries one after the other, from a book of n levels. */
  function Played(n: nat, es: seq<Entry>, base: nat): (w: Whole)
    requires n > 1
    ensures |w.f.book| == n
  {
    if es == [] then Whole(Opening(n), Windows.Beginning())
    else
      var w := Played(n, es[..|es| - 1], base);
      var e := es[|es| - 1];
      if !Enterable(e, base, n) then w
      else match e
        case One(t) => Joint.Enters(w, t, base)
        case Two(first, second) => PairEnters(w, first, second, base)
  }

  lemma OpeningInOrder(n: nat)
    requires n > 1
    ensures InOrder(Whole(Opening(n), Windows.Beginning()))
  {
    Windows.BeginningIdle();
    hide Linked.Inv, Windows.Idle;
    Began();
    assert IdsUpTo(Opening(n).book, 0) && AllSized(Opening(n).book);
  }

  lemma Began()
    ensures Windows.Idle(Windows.Beginning()) ==> Linked.Inv(Windows.Beginning(), 0, 0)
  {
  }

  lemma {:induction false} PlayedInOrder(n: nat, es: seq<Entry>, base: nat)
    requires n > 1
    ensures InOrder(Played(n, es, base))
  {
    hide InOrder, Joint.Enters, PairEnters;
    if es == [] {
      OpeningInOrder(n);
    } else {
      var w := Played(n, es[..|es| - 1], base);
      PlayedInOrder(n, es[..|es| - 1], base);
      var e := es[|es| - 1];
      if Enterable(e, base, n) {
        match e {
          case One(t) => EntersInOrder(w, t, base);
          case Two(first, second) => PairInOrder(w, first, second, base);
        }
      }
    }
  }

  /** Whatever has entered before, of orders and pairs, a pair that enters now is spoilt exactly when
      the prices say so. */
  lemma SpoiltAnywhere(n: nat, es: seq<Entry>, first: Ticket, second: Ticket, base: nat)
    requires n > 1 && AcceptablePair(first, second, base, n)
    ensures var w := Played(n, es, base);
      Joint.Spoilt(w, first, second, base) <==> Joint.Spoils(w, first, second, base)
  {
    hide Joint.Spoilt, Joint.Spoils, InOrder;
    PlayedInOrder(n, es, base);
    Joint.SpoiltIff(Played(n, es, base), first, second, base);
  }
}
