/** After any orders and pairs have entered, what the next order will trade is told by looking. */
module Foresight {
  import opened Ladder
  import opened Matcher
  import opened Desk
  import opened Reference
  import opened OneCancels
  import opened Joint
  import opened Lookout
  import opened Upkeep
  import Linked
  import Contingent
  import Windows

  /** No order rests twice in the limit chains. */
  ghost predicate Apart(book: seq<Level>) {
    && (forall r :: 0 <= r < |book| ==> Distinct(book[r].limits))
    && forall r: nat, q: nat, x ::
         r < |book| && q < |book| && Holds(book[r].limits, x) && Holds(book[q].limits, x) ==> r == q
  }

  ghost predicate NoEntries(orders: map<nat, Linked.Order>) {
    forall x :: x in orders ==> !orders[x].cond.Entry?
  }

  ghost predicate Tidy(w: Whole) {
    Apart(w.f.book) && NoEntries(w.s.orders)
  }

  /** In a tidy book the orders ahead of a walk are apart, and none is an entry with exits. */
  lemma TidySeparate(w: Whole, bids: bool, inside: nat)
    requires Tidy(w)
    ensures Separate(w, bids, inside)
  {
    forall r: nat, i: nat, b, q: nat, j: nat, c | At(w.f.book, r, i, b) && At(w.f.book, q, j, c) && b.id == c.id
      ensures r == q && i == j
    {
      assert Holds(w.f.book[r].limits, b.id) && Holds(w.f.book[q].limits, b.id);
    }
  }

  /* ---- orders leave ---- */

  lemma {:induction false} LiveDistinct(c: seq<Bundle>, orders: map<nat, Linked.Order>)
    requires Distinct(c)
    ensures Distinct(Live(c, orders))
  {
    if c != [] {
      LiveDistinct(c[1..], orders);
      LiveHolds(c[1..], orders, c[0].id);
      var rest := Live(c[1..], orders);
      forall i | 0 <= i < |rest| ensures rest[i].id != c[0].id {
        assert rest[i] in rest;
      }
    }
  }

  lemma FollowedApart(book: seq<Level>, orders: map<nat, Linked.Order>)
    requires Apart(book)
    ensures Apart(Followed(book, orders))
  {
    hide Holds, Distinct, Live;
    var book' := Followed(book, orders);
    forall r | 0 <= r < |book'| ensures Distinct(book'[r].limits) {
      LiveDistinct(book[r].limits, orders);
    }
    forall r: nat, q: nat, x |
      r < |book| && q < |book| && Holds(book'[r].limits, x) && Holds(book'[q].limits, x) ensures r == q {
      LiveHolds(book[r].limits, orders, x);
      LiveHolds(book[q].limits, orders, x);
    }
  }

  lemma SameApart(book: seq<Level>, book': seq<Level>)
    requires Apart(book) && |book'| == |book| && forall r :: 0 <= r < |book| ==> book'[r].limits == book[r].limits
    ensures Apart(book')
  {
  }

  lemma HitNoEntries(s: Linked.State, id: nat, amount: nat)
    requires Linked.CanHit(s, id, amount) && NoEntries(s.orders)
    ensures NoEntries(Linked.Hit(s, id, amount).orders)
  {
    HandledNoEntries(Linked.Touch(s, id), id, amount);
    hide Linked.Handled;
  }

  lemma HandledNoEntries(s: Linked.State, id: nat, amount: nat)
    requires Linked.CanHit(s, id, amount) && NoEntries(s.orders)
    ensures NoEntries(Linked.Handled(s, id, amount).orders)
  {
    if s.orders[id].cond.Exit? {
      ExitNoEntries(s, id, amount);
    }
  }

  lemma ExitNoEntries(s: Linked.State, id: nat, amount: nat)
    requires Linked.CanHit(s, id, amount) && NoEntries(s.orders) && s.orders[id].cond.Exit?
    ensures NoEntries(Linked.Handled(s, id, amount).orders)
  {
    hide Linked.Add;
  }

  lemma TriggeredNoEntries(s: Linked.State, id: nat, market: bool)
    requires Linked.CanTrigger(s, id) && NoEntries(s.orders)
    ensures NoEntries(Linked.Triggered(s, id, market).orders)
  {
  }

  lemma StrikeTidy(w: Whole, id: nat, amount: nat)
    requires Linked.CanHit(w.s, id, amount) && Tidy(w)
    ensures Tidy(Joint.Strike(w, id, amount))
  {
    hide Apart, NoEntries, Linked.Hit;
    HitNoEntries(w.s, id, amount);
    FollowedApart(w.f.book, Linked.Hit(w.s, id, amount).orders);
  }

  lemma {:induction false} StrikeChainTidy(w: Whole, p: nat, size: nat)
    requires p < |w.f.book| && Tidy(w)
    ensures Tidy(StrikeChain(w, p, size).w)
    decreases size
  {
    hide Tidy, Joint.Strike;
    var c := w.f.book[p].limits;
    if size != 0 && c != [] && Linked.CanHit(w.s, c[0].id, Min(size, c[0].sz)) {
      StrikeTidy(w, c[0].id, Min(size, c[0].sz));
      StrikeChainTidy(Joint.Strike(w, c[0].id, Min(size, c[0].sz)), p, size - Min(size, c[0].sz));
    }
  }

  lemma {:induction false} WalkTidy(w: Whole, bids: bool, inside: nat, p: nat, limit: nat, size: nat)
    requires OnBook(|w.f.book|, bids, p, limit) && Tidy(w)
    ensures Tidy(Walk(w, bids, inside, p, limit, size).w)
    decreases if bids then p else |w.f.book| - p
  {
    hide StrikeChain, Tidy;
    if size != 0 && InsideOf(bids, p, limit) {
      if OnSide(bids, p, inside) {
        StrikeChainTidy(w, p, size);
        var h := StrikeChain(w, p, size);
        WalkTidy(h.w, bids, inside, Next(bids, p), limit, h.left);
      } else {
        WalkTidy(w, bids, inside, Next(bids, p), limit, size);
      }
    }
  }

  lemma SpringTidy(w: Whole, b: Bundle)
    requires Tidy(w)
    ensures Tidy(Spring(w, b))
  {
    hide Apart, NoEntries, Linked.Triggered;
    if Linked.CanTrigger(w.s, b.id) {
      TriggeredNoEntries(w.s, b.id, b.Stop? && b.limit == 0);
      FollowedApart(w.f.book, Linked.Triggered(w.s, b.id, b.Stop? && b.limit == 0).orders);
    }
  }

  lemma {:induction false} SpringAllTidy(w: Whole, c: seq<Bundle>)
    requires Tidy(w)
    ensures Tidy(SpringAll(w, c))
    decreases |c|
  {
    hide Tidy, Spring;
    if c != [] {
      SpringTidy(w, c[0]);
      SpringAllTidy(Spring(w, c[0]), c[1..]);
    }
  }

  lemma LevelTidy(w: Whole, buys: bool, p: nat)
    requires Tidy(w) && p < |w.f.book|
    ensures Tidy(TakeLevel(w, buys, p))
  {
    hide SpringAll, Apart, NoEntries;
    SameApart(w.f.book, Freed(w.f, buys, p).book);
    SpringAllTidy(w.(f := Freed(w.f, buys, p)), w.f.book[p].stops);
  }

  lemma {:induction false} UpTidy(w: Whole, p: nat, last: nat)
    requires Tidy(w)
    ensures Tidy(Up(w, p, last).w)
    decreases last + 1 - p
  {
    hide TakeLevel, Tidy;
    if p <= last && p < |w.f.book| {
      LevelTidy(w, true, p);
      UpTidy(TakeLevel(w, true, p), p + 1, last);
    }
  }

  lemma {:induction false} DownTidy(w: Whole, p: nat, last: nat)
    requires Tidy(w)
    ensures Tidy(Down(w, p, last).w)
    decreases p
  {
    hide TakeLevel, Tidy;
    if p >= last && p != 0 && p < |w.f.book| {
      LevelTidy(w, false, p);
      DownTidy(TakeLevel(w, false, p), p - 1, last);
    }
  }

  /* ---- orders enter ---- */

  lemma AfterTidy(w: Whole, t: Ticket, base: nat)
    requires |w.f.book| > 1 && Acceptable(t, base, |w.f.book|) && t.otype.LimitOrder? && Tidy(w)
    ensures Tidy(AfterTrades(w, t, base))
  {
    hide Walk, Up, Down, Apart, NoEntries;
    var n := Numbered(w);
    var bids, p := !t.isBuy, LevelOf(t.limit, base);
    WalkTidy(n, bids, InsideLevel(n.f, bids), Outermost(bids, |n.f.book|), p, t.sz);
    var r := Entering(w, t, base);
    if r.fills != [] {
      UpTidy(r.w, r.w.f.lowBuyStop, r.w.f.last);
      var u := Up(r.w, r.w.f.lowBuyStop, r.w.f.last).w;
      DownTidy(u, u.f.highSellStop, r.w.f.last);
    }
  }

  /** A new order comes to rest at the back of a chain. */
  lemma PushedApart(book: seq<Level>, p: nat, b: Bundle)
    requires Apart(book) && p < |book| && forall r :: 0 <= r < |book| ==> !Holds(book[r].limits, b.id)
    ensures Apart(Pushed(book, p, Limits, b))
  {
    var book' := Pushed(book, p, Limits, b);
    assert book'[p].limits == book[p].limits + [b];
    assert forall r :: 0 <= r < |book| && r != p ==> book'[r].limits == book[r].limits;
    forall i | 0 <= i < |book[p].limits| ensures book[p].limits[i].id != b.id {
      assert book[p].limits[i] in book[p].limits;
    }
    forall r: nat, x | r < |book| && Holds(book'[r].limits, x)
      ensures if x == b.id then r == p else Holds(book[r].limits, x) {
      var y :| y in book'[r].limits && y.id == x;
      assert y == b || y in book[r].limits;
    }
  }

  /** Where the linked orders do not know id, it does not rest. */
  lemma Unheld(w: Whole, id: nat)
    requires Agreed(w) && id !in w.s.orders
    ensures forall r :: 0 <= r < |w.f.book| ==> !Holds(w.f.book[r].limits, id)
  {
    forall r | 0 <= r < |w.f.book| ensures !Holds(w.f.book[r].limits, id) {
      assert forall b :: b in w.f.book[r].limits ==> Matches(w.s, b, false);
    }
  }

  lemma LimitTidy(w: Whole, t: Ticket, base: nat)
    requires |w.f.book| > 1 && Acceptable(t, base, |w.f.book|) && t.otype.LimitOrder? && InOrder(w) && Tidy(w)
    ensures Tidy(Joint.Enters(w, t, base))
  {
    hide Fine, NoAonChains, Entering, Joint.Checked, Orderly, Outward, Joint.Enters, AfterTrades, Linked.Inv, Apart,
      Pushed;
    var p := LevelOf(t.limit, base);
    var id := w.s.lastId + 1;
    var w1 := AfterTrades(w, t, base);
    var left := Entering(w, t, base).left;
    AfterTidy(w, t, base);
    AfterIs(w, t, base);
    EnteredFine(w, t, base);
    EntersLimit(w, t, base);
    OrdersAfter(w, t, base);
    FineAgreed(w1);
    Unheld(w1, id);
    if left > 0 {
      PushedApart(w1.f.book, p, Resting(id, left, false));
    }
  }

  lemma StopTidy(w: Whole, t: Ticket, base: nat)
    requires |w.f.book| > 1 && Acceptable(t, base, |w.f.book|) && StopTicket(t) && InOrder(w) && Tidy(w)
    ensures Tidy(Joint.Enters(w, t, base))
  {
    hide Fine, Orderly, Joint.Enters, OneCancels.Enters, Apart, Standing;
    StopFirst(w, t, base);
    StopEnters(w.f, t, base);
    SameApart(w.f.book, Joint.Enters(w, t, base).f.book);
  }

  lemma EntersTidy(w: Whole, t: Ticket, base: nat)
    requires |w.f.book| > 1 && Acceptable(t, base, |w.f.book|) && !t.otype.Market? && InOrder(w) && Tidy(w)
    ensures Tidy(Joint.Enters(w, t, base))
  {
    if t.otype.LimitOrder? {
      LimitTidy(w, t, base);
    } else {
      StopTidy(w, t, base);
    }
  }

  /** Linking or pulling the first order of a pair makes no entry. */
  lemma SecondNoEntries(s: Linked.State, id1: nat, second: Linked.Terms, c: Linked.Call)
    requires NoEntries(Contingent.Injected(Contingent.NewId(s), s.lastId + 1, second, c).s.orders)
    ensures NoEntries(Contingent.SecondEntered(s, id1, second, false, c).s.orders)
  {
    hide Contingent.Injected;
    var orders := Contingent.SecondEntered(s, id1, second, false, c).s.orders;
    forall x | x in orders ensures !orders[x].cond.Entry? {
    }
  }

  lemma PairTidy(w: Whole, first: Ticket, second: Ticket, base: nat)
    requires |w.f.book| > 1 && AcceptablePair(first, second, base, |w.f.book|) && InOrder(w) && Tidy(w)
    ensures Tidy(PairEnters(w, first, second, base))
  {
    hide InOrder, Apart, NoEntries, Joint.Enters, Contingent.Injected, Answer, Contingent.SecondEntered, Shut, Outward,
      Followed;
    var w1 := Joint.Enters(w, first, base);
    EntersIs(w, first, base);
    EntersTidy(w, first, base);
    var i := Contingent.Injected(Contingent.NewId(w.s), w.s.lastId + 1, TermsOf(first), Answer(w, first, base));
    if i.filled == 0 {
      EntersInOrder(w, first, base);
      EntersTidy(w1, second, base);
      EntersIs(w1, second, base);
      PairIs(w, first, second, base);
      SecondNoEntries(w1.s, w.s.lastId + 1, TermsOf(second), Answer(w1, second, base));
      FollowedApart(Joint.Enters(w1, second, base).f.book, PairEnters(w, first, second, base).s.orders);
    }
  }

  lemma {:induction false} PlayedTidy(n: nat, es: seq<Entry>, base: nat)
    requires n > 1
    ensures Tidy(Played(n, es, base))
  {
    hide InOrder, Joint.Enters, PairEnters, Tidy;
    if es == [] {
      OpeningTidy(n);
    } else {
      var w := Played(n, es[..|es| - 1], base);
      PlayedInOrder(n, es[..|es| - 1], base);
      PlayedTidy(n, es[..|es| - 1], base);
      var e := es[|es| - 1];
      if Enterable(e, base, n) {
        match e {
          case One(t) => EntersTidy(w, t, base);
          case Two(first, second) => PairTidy(w, first, second, base);
        }
      }
    }
  }

  lemma OpeningTidy(n: nat)
    requires n > 1
    ensures Tidy(Whole(Opening(n), Windows.Beginning()))
  {
  }

  /** Whatever has entered before, of orders and pairs, the trades of a limit order that enters now, the
      size they leave and the level of the last are told by looking: whom a trade would pull is passed
      over. */
  lemma ForeseenAnywhere(n: nat, es: seq<Entry>, t: Ticket, base: nat)
    requires n > 1 && Acceptable(t, base, n) && t.otype.LimitOrder?
    ensures var w := Played(n, es, base);
      var bids := !t.isBuy;
      var from := Outermost(bids, n);
      var l := Look(w.f.book, w.s.orders, bids, InsideLevel(w.f, bids), from, LevelOf(t.limit, base), {}, t.sz);
      var r := Entering(w, t, base);
      r.fills == l.fills && r.left == l.left && r.w.f.last == LastLevel(l.fills, w.f.last)
  {
    hide InOrder, Tidy, Played, Look, Entering, Separate;
    var w := Played(n, es, base);
    PlayedInOrder(n, es, base);
    PlayedTidy(n, es, base);
    TidySeparate(w, !t.isBuy, InsideLevel(w.f, !t.isBuy));
    LookoutIs(w, t, base);
  }

  /** So whether a pair that enters now is spoilt is told by looking, as long as no stop is linked. */
  lemma SpoiltForeseen(n: nat, es: seq<Entry>, first: Ticket, second: Ticket, base: nat)
    requires n > 1 && AcceptablePair(first, second, base, n) && StopsFree(Played(n, es, base).s)
    ensures var w := Played(n, es, base);
      Joint.Spoilt(w, first, second, base) <==> LooksSpoilt(w, first, second, base)
  {
    hide InOrder, Tidy, Played, Separate, StopsFree, LooksSpoilt, Joint.Spoilt, Joint.Spoils;
    var w := Played(n, es, base);
    PlayedInOrder(n, es, base);
    PlayedTidy(n, es, base);
    TidySeparate(w, !second.isBuy, InsideLevel(w.f, !second.isBuy));
    SpoiltAnywhere(n, es, first, second, base);
    SpoiltByLook(w, first, second, base);
  }
}
