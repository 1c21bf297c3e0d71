/** Fill-or-kill orders, and sessions from an empty book in which the source does not do what it
    is meant to do. */
module Hazards {
  import opened Ladder
  import opened Matcher
  import opened Desk
  import opened Overlaps
  import opened Sweep
  import opened Reference
  import opened Faults
  import opened OneCancels
  import Stops

  /* ---- fill-or-kill ---- */

  /** A fill-or-kill order that is not killed is split, part of it coming to rest, exactly when the
      book no longer suffices for what the overlapping all-or-none orders have left of it. */
  lemma FokSplitIff(f: Floor, t: Ticket, base: nat)
    requires |f.book| > 1 && Acceptable(t, base, |f.book|) && t.otype.LimitOrder? && t.cond == FillOrKill(false)
    ensures var p := LevelOf(t.limit, base);
      var pre := PreOf(f, t.isBuy, p, t.id, t.sz, false, base);
      var r := LimitPass(f, t.isBuy, p, t.id, t.sz, false, base);
      && (Killed(f, t.isBuy, p, t.sz, false) ==> Entered(f, t, base) == Passed(f, 0, false))
      && (!Killed(f, t.isBuy, p, t.sz, false) ==> Entered(f, t, base) == r.(left := 0))
      && (!pre.fault && !CrossFaults(pre.f, t.isBuy, p, pre.left, false) ==>
            (r.left > 0 <==> pre.left > 0 && Looked(pre.f, !t.isBuy, p, pre.left) > 0))
  {
    hide PreOf, Killed, Looked, Sent, Tradable, PostOf, Rested, CrossFaults;
    var p := LevelOf(t.limit, base);
    var pre := PreOf(f, t.isBuy, p, t.id, t.sz, false, base);
    CrossFaultsIff(pre.f, t.isBuy, p, t.id, pre.left, false, base);
    LookedSent(pre.f, !t.isBuy, p, t.id, pre.left, base);
    if !Tradable(pre.f, !t.isBuy, p) {
      UntradableLooked(pre.f, !t.isBuy, p, pre.left);
    }
  }

  /** With no opposing all-or-none order in reach it is filled to its whole size, with nothing
      resting, unless it is killed or its way through the book meets a hazardous level. */
  lemma FokWhole(f: Floor, t: Ticket, base: nat)
    requires |f.book| > 1 && Acceptable(t, base, |f.book|) && t.otype.LimitOrder? && t.cond == FillOrKill(false)
    requires Overlapped(f.book, !t.isBuy, LevelOf(t.limit, base)) == []
    ensures var p := LevelOf(t.limit, base);
      var m := Match(f.book, !t.isBuy, InsideLevel(f, !t.isBuy), Outermost(!t.isBuy, |f.book|), p, t.sz);
      var r := Entered(f, t, base);
      if Killed(f, t.isBuy, p, t.sz, false) then r == Passed(f, 0, false)
      else if SendFaults(f, !t.isBuy, p, t.sz) then r.fault
      else r == Passed(Sent(f, !t.isBuy, p, t.id, t.sz, base).f, 0, false) && Total(m.fills) == t.sz
             && r.f.tape == f.tape + SalesOf(m.fills, t.id, base)
  {
    hide Match, SalesOf, SendFaults, Tradable, Looked, Outward, Checked;
    var p := LevelOf(t.limit, base);
    MatchConserves(f.book, !t.isBuy, InsideLevel(f, !t.isBuy), Outermost(!t.isBuy, |f.book|), p, t.sz);
    SentFaultsIff(f, !t.isBuy, p, t.id, t.sz, base);
    LookedSent(f, !t.isBuy, p, t.id, t.sz, base);
    if !Tradable(f, !t.isBuy, p) {
      UntradableLooked(f, !t.isBuy, p, t.sz);
    }
    TapeChecked(Matched(f, !t.isBuy, p, t.id, t.sz, base).f);
  }

  lemma TapeChecked(f: Floor)
    ensures Settled(f).tape == f.tape
  {
  }

  /* ---- orders that just rest ---- */

  /** A new limit order with nothing overlapping that crosses nothing, or may not cross, just rests. */
  lemma JustRests(f: Floor, t: Ticket, base: nat, n: nat)
    requires |f.book| > 1 && Acceptable(t, base, |f.book|) && t.otype.LimitOrder? && !t.cond.FillOrKill?
      && f.queue == []
    requires forall r :: 0 < r < |f.book| ==> Chain(f.book[r], AonKind(!t.isBuy)) == []
    requires var p := LevelOf(t.limit, base);
      !OnSide(!t.isBuy, p, InsideLevel(f, !t.isBuy)) || (t.cond.AllOrNone? && Looked(f, !t.isBuy, p, t.sz) > 0)
    ensures Windowed(f, t, base, n) ==
      Passed(Rested(f.(lastId := f.lastId + 1), t.isBuy, LevelOf(t.limit, base), f.lastId + 1, t.sz, t.cond.AllOrNone?),
        0, false)
  {
    hide Looked, Overlapped, Sent, Rested;
    var p := LevelOf(t.limit, base);
    var f1 := f.(lastId := f.lastId + 1);
    assert Looked(f1, !t.isBuy, p, t.sz) == Looked(f, !t.isBuy, p, t.sz) by {
      LookedSame(f, f1, !t.isBuy, p, t.sz);
    }
    NoOverlaps(f.book, !t.isBuy, p);
    var f2 := Rested(f1, t.isBuy, p, f1.lastId, t.sz, t.cond.AllOrNone?);
    RestedAons(f1, t.isBuy, p, f1.lastId, t.sz, t.cond.AllOrNone?);
    NoOverlaps(f2.book, !t.isBuy, p);
  }

  lemma LookedSame(f: Floor, g: Floor, bids: bool, p: nat, size: nat)
    requires 0 < p < |f.book| && g == f.(lastId := g.lastId)
    ensures Looked(g, bids, p, size) == Looked(f, bids, p, size)
  {
  }

  const EMPTY: seq<Level> := [VACANT, VACANT, VACANT, VACANT]

  /** A floor of three prices with no stops and no trades so far. */
  function Still(book: seq<Level>, bid: nat, ask: nat, lastId: nat): Floor {
    Floor(book, bid, ask, 4, 0, 4, 0, [], 0, false, [], lastId)
  }

  lemma OpeningIs()
    ensures Opening(4) == Still(EMPTY, 0, 4, 0)
  {
    assert Opening(4).book == EMPTY;
  }

  function LimitTicket(isBuy: bool, limit: nat, sz: nat, cond: Condition): Ticket {
    Ticket(LimitOrder, isBuy, limit, 0, sz, cond, 0)
  }

  lemma VacantHit(bids: bool, onSide: bool, p: nat, size: nat)
    ensures HitLevel(VACANT, bids, onSide, p, size) == LevelHit(VACANT, [], size, false)
  {
  }

  /* ---- a fill-or-kill order that is split ---- */

  const BID := Resting(2, 5, false)
  const SELL := Resting(1, 10, true)
  const BIDS: seq<Level> := [VACANT, VACANT, Level([BID], [], [], []), VACANT]
  const BEFORE: seq<Level> := [VACANT, VACANT, Level([BID], [], [], [SELL]), VACANT]
  const AFTER: seq<Level> := [VACANT, VACANT, VACANT, Level([Resting(3, 5, false)], [], [], [])]

  const OFFER: seq<Level> := [VACANT, VACANT, Level([], [], [], [SELL]), VACANT]

  /** An all-or-none sell of 10, a bid of 5 at its price, which it does not suffice for, and a
      fill-or-kill buy of 10 above: the look-ahead counts the sell, but the sell then takes from
      the book what it can get there, and half of the fill-or-kill order is left to rest. */
  lemma FokSplit(n: nat)
    ensures var f1 := Windowed(Opening(4), LimitTicket(false, 2, 10, AllOrNone), 1, n);
      var f2 := Windowed(f1.f, LimitTicket(true, 2, 5, Plain), 1, n);
      var f3 := Windowed(f2.f, LimitTicket(true, 3, 10, FillOrKill(false)), 1, n);
      && !f1.fault && !f2.fault && !f3.fault
      && f3.f.tape == [Sale(2, 5, 1, 2), Sale(3, 5, 1, 3)] && f3.f.book == AFTER
  {
    OpeningIs();
    SellRests(n);
    BidRests(n);
    Splits(n);
    hide *;
  }

  lemma SellRests(n: nat)
    ensures Windowed(Still(EMPTY, 0, 4, 0), LimitTicket(false, 2, 10, AllOrNone), 1, n) ==
      Passed(Still(OFFER, 0, 4, 1), 0, false)
  {
    hide Windowed;
    JustRests(Still(EMPTY, 0, 4, 0), LimitTicket(false, 2, 10, AllOrNone), 1, n);
    assert VACANT.aonSells + [SELL] == [SELL];
    assert Pushed(EMPTY, 2, AonSells, SELL) == OFFER;
  }

  lemma BidRests(n: nat)
    ensures Windowed(Still(OFFER, 0, 4, 1), LimitTicket(true, 2, 5, Plain), 1, n) ==
      Passed(Still(BEFORE, 2, 4, 2), 0, false)
  {
    BidEnters();
    hide Entered;
  }

  /** The bid is too small for the sell, alone and together with the book. */
  lemma BidEnters()
    ensures Entered(Still(OFFER, 0, 4, 2), LimitTicket(true, 2, 5, Plain).(id := 2), 1) ==
      Passed(Still(BEFORE, 2, 4, 2), 0, false)
  {
    hide PreOf, Crossed, PostOf, Rested;
    var f := Still(OFFER, 0, 4, 2);
    NoneYet(f);
    PassedOver(f);
    BidFirst(f);
    NoneThen(Still(BEFORE, 2, 4, 2));
  }

  lemma NoneYet(f: Floor)
    requires f == Still(OFFER, 0, 4, 2)
    ensures PreOf(f, true, 2, 2, 5, false, 1) == Passed(f, 5, false)
  {
    hide Looked, Overlapped;
    OfferReached(OFFER);
    UntradableLooked(f, true, 2, 10);
    assert [Overlap(2, SELL)][..0] == [];
    assert PrePass(f, true, [], 2, 2, false, 5, 1) == Passed(f, 5, false);
  }

  lemma OfferReached(book: seq<Level>)
    requires |book| == 4 && book[1] == VACANT && book[2].aonSells == [SELL]
    ensures Overlapped(book, false, 2) == [Overlap(2, SELL)]
  {
    assert Overlapped(book, false, 0) == [] && Overlapped(book, false, 1) == [];
    assert Tagged(2, [SELL]) == [Overlap(2, SELL)];
    assert Overlapped(book, false, 2) == [Overlap(2, SELL)] + [];
  }

  lemma PassedOver(f: Floor)
    requires f == Still(OFFER, 0, 4, 2)
    ensures Crossed(f, true, 2, 2, 5, false, 1) == Passed(f, 5, false)
  {
    assert HitAons([SELL][1..], 2, 5) == Hit([], [], [], 5);
    assert HitAons([SELL], 2, 5) == Hit([SELL], [], [], 5) by {
      assert [SELL] + [] == [SELL];
    }
    assert HitLevel(OFFER[2], false, false, 2, 5) == LevelHit(OFFER[2], [], 5, false);
    VacantHit(false, false, 1, 5);
    hide HitLevel;
    assert OFFER[1 := VACANT] == OFFER && OFFER[2 := OFFER[2]] == OFFER;
    assert Match(OFFER, false, 4, 3, 2, 5) == Outcome(OFFER, [], 5, false);
    assert Match(OFFER, false, 4, 2, 2, 5) == Outcome(OFFER, [], 5, false);
    assert Match(OFFER, false, 4, 1, 2, 5) == Outcome(OFFER, [], 5, false);
    hide Match;
    assert f.tape + [] == f.tape;
    assert Sent(f, false, 2, 2, 5, 1) == Passed(f, 5, false);
  }

  lemma BidFirst(f: Floor)
    requires f == Still(OFFER, 0, 4, 2)
    ensures Rested(f, true, 2, 2, 5, false) == Still(BEFORE, 2, 4, 2)
  {
    assert VACANT.limits + [BID] == [BID];
    assert Pushed(OFFER, 2, Limits, BID) == BEFORE;
  }

  lemma NoneThen(f: Floor)
    requires f == Still(BEFORE, 2, 4, 2)
    ensures PostOf(f, true, 2, 1) == Passed(f, 0, false)
  {
    hide Looked, Overlapped;
    OfferReached(BEFORE);
    LookedHalf(f);
    assert [Overlap(2, SELL)][..0] == [];
    assert PostPass(f, true, [], 1) == Passed(f, 0, false);
  }

  /** A walk down to level 2 meets the bid. */
  lemma BidWalk(book: seq<Level>, sells: seq<Bundle>)
    requires book == [VACANT, VACANT, Level([BID], [], [], sells), VACANT]
    ensures Match(book, true, 2, 3, 2, 10) == Outcome(book[2 := Level([], [], [], sells)], [Fill(2, 2, 5)], 5, false)
  {
    var book' := book[2 := Level([], [], [], sells)];
    VacantHit(true, false, 3, 10);
    assert book[3 := VACANT] == book;
    BidHit(book[2], sells);
    hide HitLevel;
    assert Match(book', true, 2, 1, 2, 5) == Outcome(book', [], 5, false);
    assert [Fill(2, 2, 5)] + [] == [Fill(2, 2, 5)];
    assert Match(book, true, 2, 2, 2, 10) == Outcome(book', [Fill(2, 2, 5)], 5, false);
    assert Match(book, true, 2, 3, 2, 10) == Outcome(book', [] + [Fill(2, 2, 5)], 5, false);
    assert [] + [Fill(2, 2, 5)] == [Fill(2, 2, 5)];
  }

  lemma BidHit(l: Level, sells: seq<Bundle>)
    requires l == Level([BID], [], [], sells)
    ensures HitLevel(l, true, true, 2, 10) == LevelHit(Level([], [], [], sells), [Fill(2, 2, 5)], 5, false)
  {
    assert HitLimits([BID][1..], 2, 5) == Hit([], [], [], 5);
    assert [] + ([Fill(2, 2, 5)] + []) == [Fill(2, 2, 5)];
  }

  /** The floor once half of the all-or-none sell was filled from the book. */
  const HALF := Floor(EMPTY, 0, 4, 4, 0, 4, 0, [Sale(2, 5, 1, 2)], 2, false, [], 3)

  /** ... and half from the new order. */
  const WHOLE := HALF.(tape := [Sale(2, 5, 1, 2), Sale(3, 5, 1, 3)], last := 3, check := true)

  lemma Splits(n: nat)
    ensures var r := Windowed(Still(BEFORE, 2, 4, 2), LimitTicket(true, 3, 10, FillOrKill(false)), 1, n);
      !r.fault && r.f.tape == [Sale(2, 5, 1, 2), Sale(3, 5, 1, 3)] && r.f.book == AFTER
  {
    SplitEntered();
    hide Entered;
  }

  lemma SplitEntered()
    ensures forall cond :: cond == Plain || cond == FillOrKill(false) ==>
      Entered(Still(BEFORE, 2, 4, 3), LimitTicket(true, 3, 10, cond).(id := 3), 1) ==
        Passed(WHOLE.(book := AFTER, bid := 3), 0, false)
  {
    var f := Still(BEFORE, 2, 4, 3);
    Counted(f);
    First(f);
    RestEnters();
    hide PreOf, EnterPass, Looked;
  }

  /** With an all-or-none order in the book even two limit orders of a one-cancels-other pair both
      trade: the first is too small for the sell, but together with the second it is not. */
  lemma BothLimits(n: nat)
    ensures var f := Windowed(Opening(4), LimitTicket(false, 2, 10, AllOrNone), 1, n).f;
      var first := LimitTicket(true, 2, 5, Plain);
      var second := LimitTicket(true, 3, 10, Plain);
      && |f.book| == 4 && AcceptablePair(first, second, 1, 4)
      && Spoilt(f, first, second, 1) && !Spoils(f, first, second, 1)
  {
    OpeningIs();
    SellRests(n);
    BidEnters();
    SplitEntered();
    hide Windowed, Entered;
    var g, h := Still(BEFORE, 2, 4, 2), WHOLE.(book := AFTER, bid := 3);
    assert h.tape[|g.tape|..] == [Sale(2, 5, 1, 2), Sale(3, 5, 1, 3)];
    assert Sale(2, 5, 1, 2) in h.tape[|g.tape|..] && Sale(3, 5, 1, 3) in h.tape[|g.tape|..];
    assert Sold(g, h, 2) && Sold(g, h, 3);
  }

  /** The look-ahead counts the opposing order. */
  lemma Counted(f: Floor)
    requires f == Still(BEFORE, 2, 4, 3)
    ensures Looked(f, false, 3, 10) == 0
  {
    VacantHit(false, false, 1, 10);
    assert HitAons([SELL], 2, 10) == Hit([], [], [Fill(2, 1, 10)], 0);
    assert HitLevel(BEFORE[2], false, false, 2, 10).left == 0;
    hide HitLevel;
    assert Left(BEFORE, false, 4, 2, 3, 10) == Left(BEFORE, false, 4, 3, 3, 0) == 0;
    assert Left(BEFORE, false, 4, 1, 3, 10) == Left(BEFORE, false, 4, 2, 3, 10);
  }

  /** The opposing order goes first: 5 from the book, 5 from the new order. */
  lemma First(f: Floor)
    requires f == Still(BEFORE, 2, 4, 3)
    ensures PreOf(f, true, 3, 3, 10, false, 1) == Passed(WHOLE, 5, false)
  {
    var o := Overlap(2, SELL);
    Reached();
    LookedHalf(f);
    Sells(f, o);
    FirstOnly(f, o);
    hide Executed, Looked, Overlapped, PrePass;
  }

  lemma FirstOnly(f: Floor, o: Overlap)
    requires f == Still(BEFORE, 2, 4, 3) && o == Overlap(2, SELL)
    requires Looked(f, true, 2, 10) == 5 && Executed(f, true, o, 1) == Passed(HALF, 5, false)
    ensures Leveled(4, [o]) && PrePass(f, true, [o], 3, 3, false, 10, 1) == Passed(WHOLE, 5, false)
  {
    hide Executed, Looked;
    assert [o][..0] == [];
    assert Closing(3, 1, 1, 3, 5) == [Sale(3, 5, 1, 3)];
    assert [Sale(2, 5, 1, 2)] + [Sale(3, 5, 1, 3)] == [Sale(2, 5, 1, 2), Sale(3, 5, 1, 3)];
    assert Closed(HALF, 3, 1, 3, 5, 1) == WHOLE;
    assert PrePass(WHOLE, true, [], 3, 3, false, 5, 1) == Passed(WHOLE, 5, false);
  }

  lemma LookedHalf(f: Floor)
    requires f.book == BEFORE && f.bid == 2
    ensures Looked(f, true, 2, 10) == 5
  {
    BidWalk(BEFORE, [SELL]);
    MatchLeft(BEFORE, BEFORE, true, 2, 3, 2, 10);
    hide Match, Left;
  }

  lemma Reached()
    ensures Overlapped(BEFORE, false, 3) == [Overlap(2, SELL)]
  {
    assert Overlapped(BEFORE, false, 0) == [] && Overlapped(BEFORE, false, 1) == [];
    assert Tagged(2, [SELL]) == [Overlap(2, SELL)];
    assert Overlapped(BEFORE, false, 2) == [Overlap(2, SELL)] + [];
    assert Overlapped(BEFORE, false, 3) == [] + Overlapped(BEFORE, false, 2);
  }

  lemma Sells(f: Floor, o: Overlap)
    requires f == Still(BEFORE, 2, 4, 3) && o == Overlap(2, SELL)
    ensures Executed(f, true, o, 1) == Passed(HALF, 5, false)
  {
    assert Without([SELL], 0) == [];
    assert Pull(BEFORE, false, o) == BIDS;
    BidWalk(BIDS, []);
    assert BIDS[2 := VACANT] == EMPTY;
    assert Outward(EMPTY, true, 2) == 0 by {
      assert Outward(EMPTY, true, 0) == 0 && Outward(EMPTY, true, 1) == 0;
    }
    assert SalesOf([Fill(2, 2, 5)], 1, 1) == [Sale(2, 5, 1, 2)] + [] == [Sale(2, 5, 1, 2)];
    hide Match, Outward, SalesOf;
    assert [] + [Sale(2, 5, 1, 2)] == [Sale(2, 5, 1, 2)];
    assert Matched(f.(book := BIDS), true, 2, 1, 10, 1) == Passed(HALF.(check := true), 5, false);
    NothingDue(HALF.(check := true));
  }

  lemma NothingDue(f: Floor)
    requires f.lowBuyStop > f.last && f.highSellStop < f.last
    ensures Checked(f) == f.(check := false)
  {
    assert Swept(f.book, f.lowBuyStop, f.last) == f.book && Swept(f.book, f.last, f.highSellStop) == f.book;
    assert DueStops(f) == [] + [] && f.queue + [] == f.queue;
  }

  /** What is left of the new order rests. */
  lemma RestEnters()
    ensures EnterPass(WHOLE, true, 3, 3, 5, false, 1) == Passed(WHOLE.(book := AFTER, bid := 3), 5, false)
  {
    assert !Tradable(WHOLE, false, 3);
    assert VACANT.limits + [Resting(3, 5, false)] == [Resting(3, 5, false)];
    assert Pushed(EMPTY, 3, Limits, Resting(3, 5, false)) == AFTER;
    NoOverlaps(AFTER, false, 3);
    hide Overlapped;
  }

  /* ---- two sessions that end where the source's behaviour is not defined ---- */

  const AONBUY := Resting(1, 3, true)
  const AONBUYS: seq<Level> := [VACANT, Level([], [], [AONBUY], []), VACANT, VACANT]
  const BUYS: seq<Level> := [VACANT, Level([Resting(2, 5, false)], [], [AONBUY], []), VACANT, VACANT]

  /** An all-or-none buy of 3, a buy of 5 at the same level, a market sell of 3: the first
      takes everything, and the source goes on to the second with nothing left. */
  lemma EmptyHanded(n: nat)
    ensures var f1 := Windowed(Opening(4), LimitTicket(true, 1, 3, AllOrNone), 1, n);
      var f2 := Windowed(f1.f, LimitTicket(true, 1, 5, Plain), 1, n);
      var f3 := Windowed(f2.f, Ticket(Market, false, 0, 0, 3, Plain, 0), 1, n);
      !f1.fault && !f2.fault && f3.fault
  {
    OpeningIs();
    TwoBuys(n);
    SellFaults(n);
    hide *;
  }

  lemma TwoBuys(n: nat)
    ensures Windowed(Still(EMPTY, 0, 4, 0), LimitTicket(true, 1, 3, AllOrNone), 1, n) ==
      Passed(Still(AONBUYS, 0, 4, 1), 0, false)
    ensures Windowed(Still(AONBUYS, 0, 4, 1), LimitTicket(true, 1, 5, Plain), 1, n) ==
      Passed(Still(BUYS, 1, 4, 2), 0, false)
  {
    FirstBuy(n);
    SecondBuy(n);
    hide *;
  }

  lemma FirstBuy(n: nat)
    ensures Windowed(Still(EMPTY, 0, 4, 0), LimitTicket(true, 1, 3, AllOrNone), 1, n) ==
      Passed(Still(AONBUYS, 0, 4, 1), 0, false)
  {
    JustRests(Still(EMPTY, 0, 4, 0), LimitTicket(true, 1, 3, AllOrNone), 1, n);
    hide Windowed;
    assert VACANT.aonBuys + [AONBUY] == [AONBUY];
    assert Pushed(EMPTY, 1, AonBuys, AONBUY) == AONBUYS;
  }

  lemma SecondBuy(n: nat)
    ensures Windowed(Still(AONBUYS, 0, 4, 1), LimitTicket(true, 1, 5, Plain), 1, n) ==
      Passed(Still(BUYS, 1, 4, 2), 0, false)
  {
    JustRests(Still(AONBUYS, 0, 4, 1), LimitTicket(true, 1, 5, Plain), 1, n);
    hide Windowed;
    assert VACANT.limits + [Resting(2, 5, false)] == [Resting(2, 5, false)];
    assert Pushed(AONBUYS, 1, Limits, Resting(2, 5, false)) == BUYS;
  }

  lemma SellFaults(n: nat)
    ensures Windowed(Still(BUYS, 1, 4, 2), Ticket(Market, false, 0, 0, 3, Plain, 0), 1, n).fault
  {
    var f := Still(BUYS, 1, 4, 3);
    NoneTaken(f);
    EmptyHit(f);
    EnterFaultsIff(f, Ticket(Market, false, 0, 0, 3, Plain, 3), 1);
    hide PreOf, SendFaults, MarketPass, PreOfFaults;
  }

  lemma NoneTaken(f: Floor)
    requires f == Still(BUYS, 1, 4, 3)
    ensures PreOf(f, false, 1, 3, 3, false, 1) == Passed(f, 3, false)
  {
    var o := Overlap(1, AONBUY);
    assert Overlapped(BUYS, true, 1) == [o] by {
      assert Overlapped(BUYS, true, 4) == [] && Overlapped(BUYS, true, 3) == [] && Overlapped(BUYS, true, 2) == [];
      assert Tagged(1, [AONBUY]) == [o];
    }
    assert !Tradable(f, false, 1);
    UntradableLooked(f, false, 1, 3);
    hide Overlapped, Looked, PrePass;
    OneStays(f, false, o, 1, 3, false, 3, 1);
  }

  /** A single overlapping order that the book and the new order do not fill stays. */
  lemma OneStays(f: Floor, bids: bool, o: Overlap, p: nat, id: nat, aon: bool, rmndr: nat, base: nat)
    requires 0 < o.level < |f.book| && !Suffices(aon, Looked(f, bids, o.level, o.bundle.sz), rmndr)
    ensures Leveled(|f.book|, [o]) && PrePass(f, bids, [o], p, id, aon, rmndr, base) == Passed(f, rmndr, false)
  {
    hide Looked, Suffices;
    assert [o][..0] == [];
  }

  /** The size sent reaches level 1 whole, and the all-or-none order there takes it all. */
  lemma EmptyHit(f: Floor)
    requires f == Still(BUYS, 1, 4, 3)
    ensures SendFaults(f, true, 1, 3)
  {
    assert PastAons([AONBUY], 3) == PastAons([], 0) == 0;
    assert Hazardous(BUYS[1], true, true, 3);
    assert Arriving(BUYS, true, 1, 1, 1, 3) == 3;
    assert Arriving(BUYS, true, 1, 2, 1, 3) == 3;
    assert Arriving(BUYS, true, 1, 3, 1, 3) == 3;
    assert FaultsAt(BUYS, true, 1, 3, 1, 1, 3);
  }

  const SELLS1: seq<Level> := [VACANT, VACANT, Level([Resting(1, 2, false)], [], [], []), VACANT]
  const SELLS2: seq<Level> := [VACANT, VACANT, Level([Resting(1, 2, false), Resting(2, 5, true)], [], [], []), VACANT]

  /** A sell of 2, an all-or-none sell of 5 behind it, a buy of 3: the second steps aside,
      and the source files it under the buys. */
  lemma Misfiled(n: nat)
    ensures var f1 := Windowed(Opening(4), LimitTicket(false, 2, 2, Plain), 1, n);
      var f2 := Windowed(f1.f, LimitTicket(false, 2, 5, AllOrNone), 1, n);
      var f3 := Windowed(f2.f, LimitTicket(true, 2, 3, Plain), 1, n);
      !f1.fault && !f2.fault && f3.fault
  {
    OpeningIs();
    TwoSells(n);
    BuyFaults(n);
    hide *;
  }

  lemma TwoSells(n: nat)
    ensures Windowed(Still(EMPTY, 0, 4, 0), LimitTicket(false, 2, 2, Plain), 1, n) ==
      Passed(Still(SELLS1, 0, 2, 1), 0, false)
    ensures Windowed(Still(SELLS1, 0, 2, 1), LimitTicket(false, 2, 5, AllOrNone), 1, n) ==
      Passed(Still(SELLS2, 0, 2, 2), 0, false)
  {
    FirstSell(n);
    SecondSell(n);
    hide *;
  }

  lemma FirstSell(n: nat)
    ensures Windowed(Still(EMPTY, 0, 4, 0), LimitTicket(false, 2, 2, Plain), 1, n) ==
      Passed(Still(SELLS1, 0, 2, 1), 0, false)
  {
    hide Windowed;
    JustRests(Still(EMPTY, 0, 4, 0), LimitTicket(false, 2, 2, Plain), 1, n);
    assert VACANT.limits + [Resting(1, 2, false)] == [Resting(1, 2, false)];
    assert Pushed(EMPTY, 2, Limits, Resting(1, 2, false)) == SELLS1;
  }

  lemma SecondSell(n: nat)
    ensures Windowed(Still(SELLS1, 0, 2, 1), LimitTicket(false, 2, 5, AllOrNone), 1, n) ==
      Passed(Still(SELLS2, 0, 2, 2), 0, false)
  {
    hide Windowed;
    JustRests(Still(SELLS1, 0, 2, 1), LimitTicket(false, 2, 5, AllOrNone), 1, n);
    assert [Resting(1, 2, false)] + [Resting(2, 5, true)] == [Resting(1, 2, false), Resting(2, 5, true)];
    assert Pushed(SELLS1, 2, Limits, Resting(2, 5, true)) == SELLS2;
  }

  lemma BuyFaults(n: nat)
    ensures Windowed(Still(SELLS2, 0, 2, 2), LimitTicket(true, 2, 3, Plain), 1, n).fault
  {
    var f := Still(SELLS2, 0, 2, 3);
    var t := LimitTicket(true, 2, 3, Plain).(id := 3);
    NoOverlaps(SELLS2, false, 2);
    assert PreOf(f, true, 2, 3, 3, false, 1) == Passed(f, 3, false);
    StepsAside(f);
    EnterFaultsIff(f, t, 1);
    hide Overlapped, PreOf, SendFaults, LimitPass, PreOfFaults;
  }

  /** The size runs out inside the second order. */
  lemma StepsAside(f: Floor)
    requires f == Still(SELLS2, 0, 2, 3)
    ensures SendFaults(f, false, 2, 3)
  {
    var c := SELLS2[2].limits;
    assert c[..1] == [Resting(1, 2, false)] && c[..1][1..] == [];
    assert StraddledAt(c, 1, 3);
    assert Hazardous(SELLS2[2], false, true, 3);
    assert Arriving(SELLS2, false, 2, 2, 2, 3) == 3;
    assert Arriving(SELLS2, false, 2, 1, 2, 3) == 3;
    assert FaultsAt(SELLS2, false, 2, 1, 2, 2, 3);
  }

  /* ---- a stop that is triggered though it is not due ---- */

  const BUYSTOP := Stop(1, 1, true, 0)
  const SELLSTOP := Stop(2, 1, false, 0)
  const STOPPED: seq<Level> := [VACANT, Level([], [BUYSTOP, SELLSTOP], [], []), VACANT, VACANT]
  const ASKED: seq<Level> := [VACANT, Level([], [BUYSTOP, SELLSTOP], [], []), Level([Resting(3, 1, false)], [], [], []),
    VACANT]

  function StopAt(isBuy: bool, stop: nat): Ticket {
    Ticket(StopOrder, isBuy, 0, stop, 1, Plain, 0)
  }

  /** A buy stop and a sell stop at 1, and a sell at 2. A buy at 2 then trades with that, for which the
      buy stop is due; the sell stop goes with it, though the last trade is above its price. */
  lemma UndueTriggered(n: nat)
    ensures var f1 := Windowed(Opening(4), StopAt(true, 1), 1, n).f;
      var f2 := Windowed(f1, StopAt(false, 1), 1, n).f;
      var f3 := Windowed(f2, LimitTicket(false, 2, 1, Plain), 1, n).f;
      var f4 := OneCancels.Enters(f3, LimitTicket(true, 2, 1, Plain), 1).f;
      && SELLSTOP in f3.book[1].stops && f4.tape == [Sale(2, 1, 4, 3)] && f4.last == 2
      && !Stops.Due(SELLSTOP, 1, f4.last) && f4.book[1].stops == []
      && f4.queue == [Triggered(BUYSTOP, 5), Triggered(SELLSTOP, 6)]
  {
    hide Windowed, OneCancels.Enters, Orderly, Entered;
    var f0 := Opening(4);
    OpeningIs();
    StillOrderly();
    var f1 := StopRests(f0, StopAt(true, 1), n);
    assert f1.book == [VACANT, Level([], [BUYSTOP], [], []), VACANT, VACANT] by {
      assert VACANT.stops + [BUYSTOP] == [BUYSTOP];
    }
    var f2 := StopRests(f1, StopAt(false, 1), n);
    assert f2.book == STOPPED by {
      assert [BUYSTOP] + [SELLSTOP] == [BUYSTOP, SELLSTOP];
    }
    AskRests(f2, n);
    BuyTakes(f2.(book := ASKED, ask := 2, lastId := 3));
  }

  lemma StillOrderly()
    ensures Orderly(Still(EMPTY, 0, 4, 0))
  {
  }

  /** A stop just rests. */
  lemma StopRests(f: Floor, t: Ticket, n: nat) returns (g: Floor)
    requires |f.book| > 1 && Acceptable(t, 1, |f.book|) && StopTicket(t) && Orderly(f) && f.queue == []
    ensures 0 < LevelOf(t.stop, 1) < |f.book|
    ensures g == Windowed(f, t, 1, n).f && Orderly(g) && g.lastId == f.lastId + 1 && g.queue == []
    ensures g == StopRested(f.(lastId := f.lastId + 1), LevelOf(t.stop, 1), StopBundle(t, f.lastId + 1))
  {
    g := OneCancels.Enters(f, t, 1).f;
    StopEnters(f, t, 1);
    hide Orderly;
  }

  lemma AskRests(f: Floor, n: nat)
    requires f == Floor(STOPPED, 0, 4, 1, 1, 1, 1, [], 0, false, [], 2) && Orderly(f)
    ensures var g := Windowed(f, LimitTicket(false, 2, 1, Plain), 1, n).f;
      g == f.(book := ASKED, ask := 2, lastId := 3) && Orderly(g)
  {
    hide Windowed, Looked, Orderly;
    JustRests(f, LimitTicket(false, 2, 1, Plain), 1, n);
    assert VACANT.limits + [Resting(3, 1, false)] == [Resting(3, 1, false)];
    assert Pushed(STOPPED, 2, Limits, Resting(3, 1, false)) == ASKED;
    AskOrderly(f.(book := ASKED, ask := 2, lastId := 3));
  }

  lemma AskOrderly(f: Floor)
    requires f == Floor(ASKED, 0, 2, 1, 1, 1, 1, [], 0, false, [], 3)
    ensures Orderly(f)
  {
  }

  /** The buy is filled, and the check sweeps level 1. */
  lemma BuyTakes(f: Floor)
    requires f == Floor(ASKED, 0, 2, 1, 1, 1, 1, [], 0, false, [], 3) && Orderly(f)
    ensures var g := OneCancels.Enters(f, LimitTicket(true, 2, 1, Plain), 1).f;
      && g.tape == [Sale(2, 1, 4, 3)] && g.last == 2 && g.book[1].stops == []
      && g.queue == [Triggered(BUYSTOP, 5), Triggered(SELLSTOP, 6)]
  {
    var t := LimitTicket(true, 2, 1, Plain);
    hide Orderly, Match, Sent, OneCancels.Enters;
    LimitIs(f, t, 1);
    AskTaken();
    BuySweeps(f.(lastId := 4));
  }

  lemma AskTaken()
    ensures Match(ASKED, false, 2, 1, 2, 1) == Outcome(STOPPED, [Fill(2, 3, 1)], 0, false)
  {
    assert HitLimits([Resting(3, 1, false)], 2, 1) == Hit([], [], [Fill(2, 3, 1)], 0);
    assert HitLevel(ASKED[2], false, true, 2, 1) == LevelHit(VACANT, [Fill(2, 3, 1)], 0, false) by {
      assert [] + [Fill(2, 3, 1)] == [Fill(2, 3, 1)];
    }
    assert HitLevel(ASKED[1], false, false, 1, 1) == LevelHit(ASKED[1], [], 1, false);
    assert ASKED[1 := ASKED[1]] == ASKED && ASKED[2 := VACANT] == STOPPED;
    hide HitLevel;
    assert Match(STOPPED, false, 2, 3, 2, 0) == Outcome(STOPPED, [], 0, false);
    assert [Fill(2, 3, 1)] + [] == [Fill(2, 3, 1)];
    assert Match(ASKED, false, 2, 2, 2, 1) == Outcome(STOPPED, [Fill(2, 3, 1)], 0, false);
    assert [] + [Fill(2, 3, 1)] == [Fill(2, 3, 1)];
  }

  lemma BuySweeps(f: Floor)
    requires f == Floor(ASKED, 0, 2, 1, 1, 1, 1, [], 0, false, [], 4)
    requires Match(ASKED, false, 2, 1, 2, 1) == Outcome(STOPPED, [Fill(2, 3, 1)], 0, false)
    ensures var r := Sent(f, false, 2, 4, 1, 1);
      && r.left == 0 && r.f.tape == [Sale(2, 1, 4, 3)] && r.f.last == 2 && r.f.book[1].stops == []
      && r.f.queue == [Triggered(BUYSTOP, 5), Triggered(SELLSTOP, 6)]
  {
    hide Match;
    var g := Matched(f, false, 2, 4, 1, 1).f;
    assert SalesOf([Fill(2, 3, 1)], 4, 1) == [Sale(2, 1, 4, 3)] by {
      assert [Sale(2, 1, 4, 3)] + SalesOf([], 4, 1) == [Sale(2, 1, 4, 3)];
    }
    assert g.tape == [Sale(2, 1, 4, 3)] && g.last == 2 && g.book == STOPPED && g.check;
    assert g.lastId == 4 && g.queue == [];
    hide Matched, SalesOf;
    Stops.CheckedStops(g);
    assert DueStops(g) == [BUYSTOP, SELLSTOP] by {
      assert SweptUp(STOPPED, 2, 2) == [];
      assert SweptUp(STOPPED, 1, 2) == [BUYSTOP, SELLSTOP] + SweptUp(STOPPED, 2, 2);
    }
    hide DueStops;
    assert Tickets([BUYSTOP, SELLSTOP][1..], 5) == [Triggered(SELLSTOP, 6)] + Tickets([], 6);
    assert Tickets([BUYSTOP, SELLSTOP], 4) == [Triggered(BUYSTOP, 5)] + [Triggered(SELLSTOP, 6)];
  }
}
