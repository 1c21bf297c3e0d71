/** A session in which an order is pulled while a pair enters, which makes the difference between
    a pair that is spoilt and one that is not. */
module Linkups {
  import opened Ladder
  import opened Matcher
  import opened Priority
  import opened Desk
  import opened Reference
  import opened Plain
  import opened OneCancels
  import opened Joint
  import opened Lookout
  import opened Upkeep
  import Faults
  import Linked
  import Routing
  import Contingent
  import Windows

  function Sell(p: nat): Ticket {
    Ticket(LimitOrder, false, p, 0, 5, Plain, 0)
  }

  /** A sell of 5 enters a book of five prices. */
  function Sold(w: Whole, p: nat): (r: Whole)
    requires |w.f.book| == 6 && 0 < p < 6
    ensures |r.f.book| == 6
  {
    Joint.Enters(w, Sell(p), 1)
  }

  /** Two of them enter, each to cancel the other. */
  function PairSold(w: Whole, p: nat, q: nat): (r: Whole)
    requires |w.f.book| == 6 && 0 < p < q < 6
    ensures |r.f.book| == 6
  {
    PairEnters(w, Sell(p), Sell(q), 1)
  }

  /* ---- orders that rest ---- */

  /** A sell without a bid in the book rests. */
  lemma SellRests(w: Whole, p: nat)
    requires InOrder(w) && w.f.bid == 0 && |w.f.book| == 6 && 0 < p < 6
    ensures var id := w.s.lastId + 1;
      var r := Sold(w, p);
      && InOrder(r) && r.f == LimitRested(w.f.(lastId := id), false, p, Resting(id, 5, false))
      && r.s == Contingent.Rest(Contingent.NewId(w.s), id, Linked.Order(false, 5, Linked.Free))
      && Contingent.Injected(Contingent.NewId(w.s), id, TermsOf(Sell(p)), Answer(w, Sell(p), 1)).filled == 0
  {
    hide Fine, Orderly, Agreed, Entering, Answer, Looked, Tradable, Joint.Enters, OneCancels.Enters, Routing.Routed,
      LimitRested, Contingent.Rest, Contingent.NewId, Contingent.Injected, FillsOf;
    var t := Sell(p);
    NoBids(w.f, p);
    Faults.UntradableLooked(w.f, true, p, 5);
    assert Agreed(w) by {
      FineAgreed(w);
    }
    Trades(w, t, 1);
    EnteringRouted(w, t, 1);
    Joint.LimitFirst(w, t, 1);
    Unfilled(w, t, 1);
    LimitRests(w.f, t, 1);
  }

  lemma NoBids(f: Floor, p: nat)
    requires Orderly(f) && f.bid == 0 && 0 < p
    ensures !Tradable(f, true, p)
  {
  }

  /** The second order rests, and is linked with the first, which does. */
  lemma SecondLinks(s: Linked.State, id1: nat, second: Linked.Terms, c: Linked.Call, s': Linked.State)
    requires var i := Contingent.Injected(Contingent.NewId(s), s.lastId + 1, second, c); i.s == s' && i.filled == 0
    requires second.sz > 0
    requires id1 in s'.orders && s.lastId + 1 in s'.orders
    ensures Contingent.SecondEntered(s, id1, second, false, c).s == Contingent.LinkedUp(s', id1, s.lastId + 1, false)
  {
    hide Contingent.Injected;
  }

  /** The floor once a pair has entered, the first of which still rests. */
  lemma PairFloor(w: Whole, first: Ticket, second: Ticket, base: nat)
    requires |w.f.book| > 1 && AcceptablePair(first, second, base, |w.f.book|)
    requires var id := w.s.lastId + 1;
      Contingent.Injected(Contingent.NewId(w.s), id, TermsOf(first), Answer(w, first, base)).filled == 0
    requires w.s.lastId + 1 in PairEnters(w, first, second, base).s.orders
    ensures var f := Joint.Enters(Joint.Enters(w, first, base), second, base).f;
      var r := PairEnters(w, first, second, base);
      var book := Followed(f.book, r.s.orders);
      r.f == f.(book := book, bid := Outward(book, true, f.bid), ask := Outward(book, false, f.ask))
  {
    hide Answer, Contingent.Injected, Contingent.OcoEntered, Joint.Enters, Shut, Followed, Outward;
  }

  /** Linking two orders that rest changes nothing in the book. */
  lemma LinkedSame(w: Whole, s: Linked.State, a: nat, b: nat)
    requires InOrder(w) && a in w.s.orders && b in w.s.orders && a != b && s == Contingent.LinkedUp(w.s, a, b, false)
    ensures Followed(w.f.book, s.orders) == w.f.book && a in s.orders
    ensures Outward(w.f.book, true, w.f.bid) == w.f.bid && Outward(w.f.book, false, w.f.ask) == w.f.ask
  {
    hide Linked.Inv;
    forall r | 0 <= r < |w.f.book| ensures Followed(w.f.book, s.orders)[r] == w.f.book[r] {
      forall b | b in w.f.book[r].limits || b in w.f.book[r].stops
        ensures b.id in s.orders && s.orders[b.id].sz == b.sz {
        assert Matches(w.s, b, b in w.f.book[r].stops);
      }
      LiveSame(w.f.book[r].limits, s.orders);
      LiveSame(w.f.book[r].stops, s.orders);
    }
    SnugOutward(w.f);
  }

  /* ---- the session ---- */

  /** Sells of 5 at 2 and 3 that cancel each other, and a sell of 5 at 4. */
  function Stage(): Whole {
    Sold(PairSold(Whole(Opening(6), Windows.Beginning()), 2, 3), 4)
  }

  lemma StagePlayed()
    ensures Stage() == Played(6, [Two(Sell(2), Sell(3)), One(Sell(4))], 1)
  {
    hide Joint.Enters, PairEnters;
    var es := [Two(Sell(2), Sell(3)), One(Sell(4))];
    assert es[..1] == [Two(Sell(2), Sell(3))] && es[..1][..0] == [];
    assert Played(6, es[..1][..0], 1) == Whole(Opening(6), Windows.Beginning());
    assert Played(6, es[..1], 1) == PairSold(Whole(Opening(6), Windows.Beginning()), 2, 3);
  }

  function At(id: nat): Level {
    Level([Resting(id, 5, false)], [], [], [])
  }

  const NOBODY: seq<Level> := [VACANT, VACANT, VACANT, VACANT, VACANT, VACANT]

  /** The two sells that cancel each other rest. */
  lemma PairStaged()
    ensures var r := PairSold(Whole(Opening(6), Windows.Beginning()), 2, 3);
      && InOrder(r) && r.f == Opening(6).(book := [VACANT, VACANT, At(1), At(2), VACANT, VACANT], ask := 2, lastId := 2)
      && r.s.lastId == 2
      && r.s.orders == map[1 := Linked.Order(false, 5, Linked.Oco(2, false)),
                           2 := Linked.Order(false, 5, Linked.Oco(1, false))]
  {
    hide InOrder, Joint.Enters, PairEnters, LimitRested, Contingent.Injected, Answer, Contingent.SecondEntered;
    var w := Whole(Opening(6), Windows.Beginning());
    OpeningInOrder(6);
    assert w.f.book == NOBODY;
    SellRests(w, 2);
    var w1 := Sold(w, 2);
    RestsAt(w.f, 0, 2, NOBODY, [VACANT, VACANT, At(1), VACANT, VACANT, VACANT]);
    SellRests(w1, 3);
    var w2 := Sold(w1, 3);
    RestsAt(w1.f, 1, 3, w1.f.book, [VACANT, VACANT, At(1), At(2), VACANT, VACANT]);
    PairIs(w, Sell(2), Sell(3), 1);
    EntersIs(w1, Sell(3), 1);
    SecondLinks(w1.s, 1, TermsOf(Sell(3)), Answer(w1, Sell(3), 1), w2.s);
    PairInOrder(w, Sell(2), Sell(3), 1);
    LinkedSame(w2, PairSold(w, 2, 3).s, 1, 2);
    PairFloor(w, Sell(2), Sell(3), 1);
  }

  lemma StageIs()
    ensures var w := Stage();
      && InOrder(w) && w.f == Opening(6).(book := [VACANT, VACANT, At(1), At(2), At(3), VACANT], ask := 2, lastId := 3)
      && w.s.lastId == 3
      && w.s.orders == map[1 := Linked.Order(false, 5, Linked.Oco(2, false)),
                           2 := Linked.Order(false, 5, Linked.Oco(1, false)),
                           3 := Linked.Order(false, 5, Linked.Free)]
  {
    hide InOrder, Joint.Enters, PairSold, LimitRested;
    PairStaged();
    var w3 := PairSold(Whole(Opening(6), Windows.Beginning()), 2, 3);
    SellRests(w3, 4);
    RestsAt(w3.f, 2, 4, w3.f.book, [VACANT, VACANT, At(1), At(2), At(3), VACANT]);
  }

  lemma RestsAt(f: Floor, id: nat, p: nat, book: seq<Level>, book': seq<Level>)
    requires f.book == book && |book| == 6 && 0 < p < 6 && book[p] == VACANT && book' == book[p := At(id + 1)]
    ensures LimitRested(f.(lastId := id + 1), false, p, Resting(id + 1, 5, false)) ==
      f.(book := book', lastId := id + 1, ask := if p <= f.ask then p else f.ask)
  {
    var none := VACANT;
    assert none.limits + [Resting(id + 1, 5, false)] == [Resting(id + 1, 5, false)];
  }

  const FIRST := Ticket(StopOrder, true, 0, 4, 5, Plain, 0)
  const SECOND := Ticket(LimitOrder, true, 4, 0, 10, Plain, 0)

  /** The walk of the second order passes over the sell at 3, which the trade at 2 has pulled. */
  lemma LooksPast(w: Whole)
    requires |w.f.book| == 6
    requires w.f.book ==
      [VACANT, VACANT, At(1), At(2), Level([Resting(3, 5, false)], w.f.book[4].stops, [], []), VACANT]
    requires 1 in w.s.orders && 2 in w.s.orders && 3 in w.s.orders
    requires w.s.orders[1] == Linked.Order(false, 5, Linked.Oco(2, false))
    requires w.s.orders[2] == Linked.Order(false, 5, Linked.Oco(1, false))
    requires w.s.orders[3] == Linked.Order(false, 5, Linked.Free)
    ensures Look(w.f.book, w.s.orders, false, 2, 1, 4, {}, 10).fills == [Fill(2, 1, 5), Fill(4, 3, 5)]
    ensures Separate(w, false, 2)
  {
    var book, orders := w.f.book, w.s.orders;
    assert LookChain([Resting(1, 5, false)][1..], orders, {2}, 2, 5) == Foretold([], 5, {2});
    assert {} + {2} == {2};
    assert LookChain(book[2].limits, orders, {}, 2, 10) == Foretold([Fill(2, 1, 5)] + [], 5, {2});
    assert LookChain([Resting(2, 5, false)][1..], orders, {2}, 3, 5) == Foretold([], 5, {2});
    assert LookChain(book[3].limits, orders, {2}, 3, 5) == Foretold([], 5, {2});
    assert LookChain([Resting(3, 5, false)][1..], orders, {2} + {0}, 4, 0) == Foretold([], 0, {2} + {0});
    assert LookChain(book[4].limits, orders, {2}, 4, 5) == Foretold([Fill(4, 3, 5)] + [], 0, {2} + {0});
    hide LookChain;
    assert Look(book, orders, false, 2, 5, 4, {2} + {0}, 0) == Foretold([], 0, {2} + {0});
    assert Look(book, orders, false, 2, 4, 4, {2}, 5).fills == [Fill(4, 3, 5)] + [] == [Fill(4, 3, 5)];
    assert Look(book, orders, false, 2, 3, 4, {2}, 5).fills == [] + [Fill(4, 3, 5)] == [Fill(4, 3, 5)];
    assert Look(book, orders, false, 2, 2, 4, {}, 10).fills == [Fill(2, 1, 5)] + [Fill(4, 3, 5)];
    assert Look(book, orders, false, 2, 1, 4, {}, 10).fills == [] + ([Fill(2, 1, 5)] + [Fill(4, 3, 5)]);
  }

  /** Without the link the second order would trade at 2 and 3 only. */
  lemma LooksOn(book: seq<Level>)
    requires book == [VACANT, VACANT, At(1), At(2), At(3), VACANT]
    ensures var m := Match(book, false, 2, 1, 4, 10); m.fills == [Fill(2, 1, 5), Fill(3, 2, 5)]
  {
    hide HitLevel, HitLimits;
    HitsThere(2, 1, 10);
    HitsThere(3, 2, 5);
    assert HitLevel(book[1], false, false, 1, 10) == LevelHit(VACANT, [], 10, false) by {
      HitsNone(1, 10);
    }
    assert book[1 := VACANT] == book;
    var book2 := book[2 := VACANT];
    assert Match(book2[3 := VACANT], false, 2, 4, 4, 0).fills == [];
    assert Match(book2, false, 2, 3, 4, 5).fills == [Fill(3, 2, 5)] + [] == [Fill(3, 2, 5)];
    assert Match(book, false, 2, 2, 4, 10).fills == [Fill(2, 1, 5)] + [Fill(3, 2, 5)];
    assert Match(book, false, 2, 1, 4, 10).fills == [] + ([Fill(2, 1, 5)] + [Fill(3, 2, 5)]);
  }

  lemma HitsThere(p: nat, id: nat, size: nat)
    requires size >= 5
    ensures HitLevel(At(id), false, true, p, size) == LevelHit(VACANT, [Fill(p, id, 5)], size - 5, false)
  {
    assert HitLimits([Resting(id, 5, false)][1..], p, size - 5) == Hit([], [], [], size - 5);
    assert [] + ([Fill(p, id, 5)] + []) == [Fill(p, id, 5)];
  }

  lemma HitsNone(p: nat, size: nat)
    ensures HitLevel(VACANT, false, false, p, size) == LevelHit(VACANT, [], size, false)
  {
  }

  /** A buy stop at 4 and a buy of 10 at 4 then enter as a pair: the trade at 2 pulls the sell at 3, so
      the second order trades at 4 and triggers the first. On the same book without links the pair
      would not be spoilt. */
  lemma PulledInWalk()
    ensures var w := Played(6, [Two(Sell(2), Sell(3)), One(Sell(4))], 1);
      && AcceptablePair(FIRST, SECOND, 1, 6)
      && Joint.Spoils(w, FIRST, SECOND, 1) && Joint.Spoilt(w, FIRST, SECOND, 1)
      && !OneCancels.Spoils(w.f, FIRST, SECOND, 1)
  {
    var w := Stage();
    StageIs();
    StagePlayed();
    hide Stage, Played, InOrder, Standing, Joint.Enters, OneCancels.Enters, Entering, Takes, Looked, Match, Look,
      Separate, Orderly, Joint.Spoilt, Covers, SideAt, StopRested, Agreed, Fine;
    StopFirst(w, FIRST, 1);
    var w1 := Joint.Enters(w, FIRST, 1);
    FirstThere(w, w1);
    LooksPast(w1);
    LookoutIs(w1, SECOND, 1);
    TradesThere(w, w1);
    DueTaken(w1, SECOND, 1, true, 4, 4);
    Joint.SpoiltIff(w, FIRST, SECOND, 1);
    LooksOn(w.f.book);
  }

  lemma FirstThere(w: Whole, w1: Whole)
    requires w.f == Opening(6).(book := [VACANT, VACANT, At(1), At(2), At(3), VACANT], ask := 2, lastId := 3)
    requires w1.f == OneCancels.Enters(w.f, FIRST, 1).f && InOrder(w)
    ensures |w1.f.book| == 6
    ensures w1.f.book ==
      [VACANT, VACANT, At(1), At(2), Level([Resting(3, 5, false)], w1.f.book[4].stops, [], []), VACANT]
    ensures w1.f.ask == 2 && w1.f.bid == 0 && SideAt(w1.f, true, 4, 4) && Covers(w1.f, true)
  {
    hide Fine, PlainBook, AllSized, IdsUpTo, Entered, Snug;
    StopEnters(w.f, FIRST, 1);
    assert [] + [StopBundle(FIRST, 4)] == [StopBundle(FIRST, 4)];
    assert w1.f.book[4].stops == [StopBundle(FIRST, 4)];
  }

  lemma TradesThere(w: Whole, w1: Whole)
    requires InOrder(w) && InOrder(w1) && |w.f.book| == 6 && |w1.f.book| == 6
    requires w1 == Joint.Enters(w, FIRST, 1) && w1.f == OneCancels.Enters(w.f, FIRST, 1).f
    requires Entering(w1, SECOND, 1).fills != []
    ensures Looked(w.f, false, 4, 10) < 10
  {
    hide Fine, Orderly, Entering, Looked, Joint.Enters, OneCancels.Enters;
    assert Agreed(w1) by {
      FineAgreed(w1);
    }
    Trades(w1, SECOND, 1);
    LooksSame(w, FIRST, SECOND, 1);
  }
}
