/** Sessions from an empty book that show who trades with whom: which all-or-none order is paired, who is
    first at a price, what a triggered stop becomes, and which stops stay. */
module Sessions {
  import opened Ladder
  import opened Matcher
  import opened Desk
  import opened Overlaps
  import opened Sweep
  import opened Reference
  import opened OneCancels
  import opened Plain
  import opened Hazards

  /* ---- small books ---- */

  /** The limit chain at the inside of the asks is one order, which is filled. */
  lemma AskFilled(book: seq<Level>, p: nat, maker: nat, have: nat, size: nat)
    requires 0 < p < |book| && 0 < have <= size && book[p].limits == [Resting(maker, have, false)]
    requires forall r :: 0 < r < |book| ==> book[r].aonSells == []
    ensures Match(book, false, p, 1, p, size) ==
      Outcome(book[p := book[p].(limits := [])], [Fill(p, maker, have)], size - have, false)
  {
    MatchJump(book, false, p, 1, p, p, size);
    var l := book[p].(limits := []);
    assert HitLimits([Resting(maker, have, false)][1..], p, size - have) == Hit([], [], [], size - have);
    assert HitLevel(book[p], false, true, p, size) == LevelHit(l, [Fill(p, maker, have)], size - have, false) by {
      assert [] + ([Fill(p, maker, have)] + []) == [Fill(p, maker, have)];
    }
    hide HitLevel, HitLimits;
    assert Match(book[p := l], false, p, p + 1, p, size - have) == Outcome(book[p := l], [], size - have, false);
    assert [Fill(p, maker, have)] + [] == [Fill(p, maker, have)];
  }

  /** Level p is the inside of the bids, and all there is to match with. */
  lemma BidsHit(book: seq<Level>, p: nat, size: nat, h: LevelHit)
    requires 0 < p < |book| && h == HitLevel(book[p], true, true, p, size)
    requires forall r :: p < r < |book| ==> book[r].aonBuys == []
    ensures size > 0 ==>
      Match(book, true, p, |book| - 1, p, size) == Outcome(book[p := h.level], h.fills, h.left, h.fault)
  {
    MatchJump(book, true, p, |book| - 1, p, p, size);
    hide HitLevel;
    assert h.fills + [] == h.fills;
  }

  /** No limit orders are left outwards from p. */
  lemma {:induction false} NoneOutward(book: seq<Level>, bids: bool, p: nat)
    requires forall r :: 0 <= r < |book| && Beyond(bids, p, r) ==> book[r].limits == []
    requires if bids then p < |book| else p <= |book|
    ensures Outward(book, bids, p) == if bids then 0 else |book|
    decreases if bids then p else |book| - p
  {
    if bids && p > 0 {
      NoneOutward(book, bids, p - 1);
    } else if !bids && p < |book| {
      NoneOutward(book, bids, p + 1);
    }
  }

  lemma OneSale(p: nat, size: nat, taker: nat, maker: nat)
    ensures SalesOf([Fill(p, maker, size)], taker, 1) == [Sale(p, size, taker, maker)]
  {
    assert SalesOf([Fill(p, maker, size)][1..], taker, 1) == [];
  }

  /* ---- an all-or-none order that has exactly what another lacks ---- */

  const ASK3 := Level([Resting(3, 5, false)], [], [], [])
  const PAIRED: seq<Level> := [VACANT, VACANT, Level([BID], [], [], [SELL]), ASK3]
  const UNSOLD: seq<Level> := [VACANT, VACANT, VACANT, ASK3]

  /** An all-or-none sell of 10 at 2, a buy of 5 there and a sell of 5 at 3; then an all-or-none buy of 5 at
      3. The book lacks 5 for the all-or-none sell, and that is just what the new order has: the two oldest
      and the newest trade, and the plain sell stays. */
  lemma ExactlyPaired(n: nat)
    ensures var f1 := Windowed(Opening(4), LimitTicket(false, 2, 10, AllOrNone), 1, n).f;
      var f2 := Windowed(f1, LimitTicket(true, 2, 5, Plain), 1, n).f;
      var f3 := Windowed(f2, LimitTicket(false, 3, 5, Plain), 1, n).f;
      var r := Windowed(f3, LimitTicket(true, 3, 5, AllOrNone), 1, n);
      !r.fault && r.f.tape == [Sale(2, 5, 1, 2), Sale(3, 5, 1, 4)] && r.f.book == UNSOLD
  {
    OpeningIs();
    SellRests(n);
    BidRests(n);
    AskAbove(n);
    PairedEnters(n);
    hide *;
  }

  lemma AskAbove(n: nat)
    ensures Windowed(Still(BEFORE, 2, 4, 2), LimitTicket(false, 3, 5, Plain), 1, n) ==
      Passed(Still(PAIRED, 2, 3, 3), 0, false)
  {
    hide Windowed, Looked;
    JustRests(Still(BEFORE, 2, 4, 2), LimitTicket(false, 3, 5, Plain), 1, n);
    assert VACANT.limits + [Resting(3, 5, false)] == [Resting(3, 5, false)];
    assert Pushed(BEFORE, 3, Limits, Resting(3, 5, false)) == PAIRED;
  }

  lemma PairedEnters(n: nat)
    ensures var r := Windowed(Still(PAIRED, 2, 3, 3), LimitTicket(true, 3, 5, AllOrNone), 1, n);
      !r.fault && r.f.tape == [Sale(2, 5, 1, 2), Sale(3, 5, 1, 4)] && r.f.book == UNSOLD
  {
    PairedFirst(Still(PAIRED, 2, 3, 4));
    hide PreOf, EnterPass;
  }

  lemma PairedFirst(f: Floor)
    requires f == Still(PAIRED, 2, 3, 4)
    ensures var r := PreOf(f, true, 3, 4, 5, true, 1);
      && !r.fault && r.left == 0 && r.f.tape == [Sale(2, 5, 1, 2), Sale(3, 5, 1, 4)]
      && r.f.book == UNSOLD && r.f.queue == []
  {
    hide Executed, Looked, Overlapped, PrePass;
    PairedReached();
    PairedLooked(f);
    PairedTrades(f);
    PairedOnly(f, Executed(f, true, Overlap(2, SELL), 1));
  }

  lemma PairedLooked(f: Floor)
    requires f == Still(PAIRED, 2, 3, 4)
    ensures Looked(f, true, 2, 10) == 5
  {
    BidHit(PAIRED[2], [SELL]);
    BidsHit(PAIRED, 2, 10, HitLevel(PAIRED[2], true, true, 2, 10));
    MatchLeft(PAIRED, PAIRED, true, 2, 3, 2, 10);
    hide Match, Left, HitLevel;
  }

  lemma PairedOnly(f: Floor, r: Passed)
    requires f == Still(PAIRED, 2, 3, 4) && Looked(f, true, 2, 10) == 5 && Executed(f, true, Overlap(2, SELL), 1) == r
    requires !r.fault && r.left == 5 && |r.f.book| == 4
    ensures var g := r.f.(tape := r.f.tape + [Sale(3, 5, 1, 4)], last := 3, check := true);
      Leveled(4, [Overlap(2, SELL)]) && PrePass(f, true, [Overlap(2, SELL)], 3, 4, true, 5, 1) == Passed(g, 0, false)
  {
    hide Executed, Looked;
    assert [Overlap(2, SELL)][..0] == [];
    var g := Closed(r.f, 3, 1, 4, 5, 1);
    assert PrePass(g, true, [], 3, 4, true, 0, 1) == Passed(g, 0, false);
  }

  lemma PairedReached()
    ensures Overlapped(PAIRED, false, 3) == [Overlap(2, SELL)]
  {
    assert Overlapped(PAIRED, false, 0) == [] && Overlapped(PAIRED, false, 1) == [];
    assert Tagged(2, [SELL]) == [Overlap(2, SELL)];
    assert Overlapped(PAIRED, false, 2) == [Overlap(2, SELL)] + [];
    assert Overlapped(PAIRED, false, 3) == [] + Overlapped(PAIRED, false, 2);
  }

  lemma PairedPulled()
    ensures Pull(PAIRED, false, Overlap(2, SELL)) == [VACANT, VACANT, Level([BID], [], [], []), ASK3]
  {
    assert Without([SELL], 0) == [];
  }

  lemma PairedTrades(f: Floor)
    requires f == Still(PAIRED, 2, 3, 4)
    ensures var r := Executed(f, true, Overlap(2, SELL), 1);
      !r.fault && r.left == 5 && r.f.tape == [Sale(2, 5, 1, 2)] && r.f.book == UNSOLD && r.f.queue == []
  {
    var book: seq<Level> := [VACANT, VACANT, Level([BID], [], [], []), ASK3];
    hide Match, Outward, SalesOf, HitLevel, Pull;
    PairedPulled();
    BidHit(book[2], []);
    BidsHit(book, 2, 10, HitLevel(book[2], true, true, 2, 10));
    assert book[2 := VACANT] == UNSOLD;
    OneSale(2, 5, 1, 2);
    assert [] + [Sale(2, 5, 1, 2)] == [Sale(2, 5, 1, 2)];
    NothingDue(Matched(f.(book := book), true, 2, 1, 10, 1).f);
  }

  /* ---- who is first at a price ---- */

  const EARLY := Resting(1, 5, false)
  const LATE := Resting(2, 5, true)
  const FIRSTBID: seq<Level> := [VACANT, Level([EARLY], [], [], []), VACANT, VACANT]
  const BOTHBIDS: seq<Level> := [VACANT, Level([EARLY, LATE], [], [], []), VACANT, VACANT]
  const STOODASIDE: seq<Level> := [VACANT, Level([Resting(3, 1, false)], [], [LATE], []), VACANT, VACANT]

  /** A buy of 5 at 1, an all-or-none buy of 5 there, a sell of 6: the older buy trades, the all-or-none one
      does not fit what is left and steps aside. */
  lemma OlderFirst(n: nat)
    ensures var f1 := Windowed(Opening(4), LimitTicket(true, 1, 5, Plain), 1, n).f;
      var f2 := Windowed(f1, LimitTicket(true, 1, 5, AllOrNone), 1, n).f;
      var r := Windowed(f2, LimitTicket(false, 1, 6, Plain), 1, n);
      !r.fault && r.f.tape == [Sale(1, 5, 3, 1)] && r.f.book == STOODASIDE
  {
    OpeningIs();
    EarlyRests(n);
    LateRests(n);
    SixSold(n);
    hide *;
  }

  lemma EarlyRests(n: nat)
    ensures Windowed(Still(EMPTY, 0, 4, 0), LimitTicket(true, 1, 5, Plain), 1, n) ==
      Passed(Still(FIRSTBID, 1, 4, 1), 0, false)
  {
    hide Windowed, Looked;
    JustRests(Still(EMPTY, 0, 4, 0), LimitTicket(true, 1, 5, Plain), 1, n);
    assert VACANT.limits + [EARLY] == [EARLY];
    assert Pushed(EMPTY, 1, Limits, EARLY) == FIRSTBID;
  }

  lemma LateRests(n: nat)
    ensures Windowed(Still(FIRSTBID, 1, 4, 1), LimitTicket(true, 1, 5, AllOrNone), 1, n) ==
      Passed(Still(BOTHBIDS, 1, 4, 2), 0, false)
  {
    hide Windowed, Looked;
    JustRests(Still(FIRSTBID, 1, 4, 1), LimitTicket(true, 1, 5, AllOrNone), 1, n);
    assert [EARLY] + [LATE] == [EARLY, LATE];
    assert Pushed(FIRSTBID, 1, Limits, LATE) == BOTHBIDS;
  }

  lemma SixSold(n: nat)
    ensures var r := Windowed(Still(BOTHBIDS, 1, 4, 2), LimitTicket(false, 1, 6, Plain), 1, n);
      !r.fault && r.f.tape == [Sale(1, 5, 3, 1)] && r.f.book == STOODASIDE
  {
    var f := Still(BOTHBIDS, 1, 4, 3);
    hide Crossed, PostOf, PreOf, Rested;
    NoneBefore(f);
    SixCrossed(f);
    SixRests(Crossed(f, false, 1, 3, 6, false, 1).f);
    SixEntered(f);
    hide Entered;
  }

  lemma NoneBefore(f: Floor)
    requires f == Still(BOTHBIDS, 1, 4, 3)
    ensures PreOf(f, false, 1, 3, 6, false, 1) == Passed(f, 6, false)
  {
    NoOverlaps(BOTHBIDS, true, 1);
    hide Overlapped;
  }

  lemma SixEntered(f: Floor)
    requires f == Still(BOTHBIDS, 1, 4, 3) && PreOf(f, false, 1, 3, 6, false, 1) == Passed(f, 6, false)
    ensures var m := Crossed(f, false, 1, 3, 6, false, 1);
      Entered(f, LimitTicket(false, 1, 6, Plain).(id := 3), 1) ==
        if m.fault || m.left == 0 then m.(left := 0)
        else PostOf(Rested(m.f, false, 1, 3, m.left, false), false, 1, 1).(left := 0)
  {
    hide Crossed, PostOf, PreOf, Rested;
  }

  const LEFTASIDE: seq<Level> := [VACANT, Level([], [], [LATE], []), VACANT, VACANT]

  lemma SixCrossed(f: Floor)
    requires f == Still(BOTHBIDS, 1, 4, 3)
    ensures Crossed(f, false, 1, 3, 6, false, 1) ==
      Passed(Still(LEFTASIDE, 0, 4, 3).(tape := [Sale(1, 5, 3, 1)], last := 1), 1, false)
  {
    hide Match, Outward, SalesOf, HitLevel, Tradable;
    BothHit();
    BidsHit(BOTHBIDS, 1, 6, HitLevel(BOTHBIDS[1], true, true, 1, 6));
    assert BOTHBIDS[1 := LEFTASIDE[1]] == LEFTASIDE;
    NoneOutward(LEFTASIDE, true, 1);
    OneSale(1, 5, 3, 1);
    assert [] + [Sale(1, 5, 3, 1)] == [Sale(1, 5, 3, 1)];
    NothingDue(Matched(f, true, 1, 3, 6, 1).f);
    OnSideTradable(f, true, 1);
  }

  lemma OnSideTradable(f: Floor, bids: bool, p: nat)
    requires OnSide(bids, p, InsideLevel(f, bids))
    ensures Tradable(f, bids, p)
  {
  }

  lemma BothHit()
    ensures HitLevel(BOTHBIDS[1], true, true, 1, 6) == LevelHit(LEFTASIDE[1], [Fill(1, 1, 5)], 1, false)
  {
    assert HitLimits([EARLY, LATE][1..], 1, 1) == Hit([], [LATE], [], 1) by {
      assert HitLimits([LATE][1..], 1, 1) == Hit([], [], [], 1);
      assert [EARLY, LATE][1..] == [LATE] && [LATE] + [] == [LATE];
    }
    assert HitLimits([EARLY, LATE], 1, 6) == Hit([], [LATE], [Fill(1, 1, 5)], 1) by {
      assert [Fill(1, 1, 5)] + [] == [Fill(1, 1, 5)];
    }
    hide HitLimits;
    assert [] + [Fill(1, 1, 5)] == [Fill(1, 1, 5)] && [] + [LATE] == [LATE];
  }

  lemma SixRests(f: Floor)
    requires f == Still(LEFTASIDE, 0, 4, 3).(tape := [Sale(1, 5, 3, 1)], last := 1)
    ensures var g := Rested(f, false, 1, 3, 1, false);
      PostOf(g, false, 1, 1) == Passed(g, 0, false) && g.book == STOODASIDE && g.tape == f.tape && g.queue == []
  {
    hide Looked, Overlapped, PostPass;
    var g := Rested(f, false, 1, 3, 1, false);
    assert [] + [Resting(3, 1, false)] == [Resting(3, 1, false)];
    assert Pushed(LEFTASIDE, 1, Limits, Resting(3, 1, false)) == STOODASIDE;
    AsideReached();
    LookedOne(g);
    AsideStays(g);
  }

  lemma AsideStays(g: Floor)
    requires |g.book| == 4 && Looked(g, false, 1, 5) == 4
    ensures Leveled(4, [Overlap(1, LATE)]) && PostPass(g, false, [Overlap(1, LATE)], 1) == Passed(g, 0, false)
  {
    hide Looked;
    assert [Overlap(1, LATE)][..0] == [];
    assert PostPass(g, false, [], 1) == Passed(g, 0, false);
  }

  lemma AsideReached()
    ensures Overlapped(STOODASIDE, true, 1) == [Overlap(1, LATE)]
  {
    assert Overlapped(STOODASIDE, true, 4) == [] && Overlapped(STOODASIDE, true, 3) == []
      && Overlapped(STOODASIDE, true, 2) == [];
    assert Tagged(1, [LATE]) == [Overlap(1, LATE)];
    assert Overlapped(STOODASIDE, true, 1) == [Overlap(1, LATE)] + [];
  }

  lemma LookedOne(g: Floor)
    requires g.book == STOODASIDE && g.ask == 1
    ensures Looked(g, false, 1, 5) == 4
  {
    AskFilled(STOODASIDE, 1, 3, 1, 5);
    MatchLeft(STOODASIDE, STOODASIDE, false, 1, 1, 1, 5);
    hide Match, Left;
  }

  /* ---- a fill-or-kill order that may be filled in part ---- */

  const FOURASKED: seq<Level> := [VACANT, VACANT, Level([Resting(1, 4, false)], [], [], []), VACANT]
  const SIXBID: seq<Level> := [VACANT, VACANT, Level([Resting(2, 6, false)], [], [], []), VACANT]

  /** A sell of 4 at 2, and a fill-or-kill buy of 10 there that may be filled in part: it is, and the rest
      of it comes to rest. */
  lemma FilledInPart(n: nat)
    ensures var f1 := Windowed(Opening(4), LimitTicket(false, 2, 4, Plain), 1, n).f;
      var r := Windowed(f1, LimitTicket(true, 2, 10, FillOrKill(true)), 1, n);
      !r.fault && r.f.tape == [Sale(2, 4, 2, 1)] && r.f.book == SIXBID
  {
    OpeningIs();
    FourRests(n);
    PartEnters(Still(FOURASKED, 0, 2, 2));
    hide Entered;
  }

  lemma FourRests(n: nat)
    ensures Windowed(Still(EMPTY, 0, 4, 0), LimitTicket(false, 2, 4, Plain), 1, n) ==
      Passed(Still(FOURASKED, 0, 2, 1), 0, false)
  {
    hide Windowed, Looked;
    JustRests(Still(EMPTY, 0, 4, 0), LimitTicket(false, 2, 4, Plain), 1, n);
    assert VACANT.limits + [Resting(1, 4, false)] == [Resting(1, 4, false)];
    assert Pushed(EMPTY, 2, Limits, Resting(1, 4, false)) == FOURASKED;
  }

  lemma PartEnters(f: Floor)
    requires f == Still(FOURASKED, 0, 2, 2)
    ensures var r := Entered(f, LimitTicket(true, 2, 10, FillOrKill(true)).(id := 2), 1);
      !r.fault && r.left == 0 && r.f.tape == [Sale(2, 4, 2, 1)] && r.f.book == SIXBID && r.f.queue == []
  {
    hide Match, Left, Sent, LimitPass, Looked;
    PartTrades(f);
    LookedSent(f, false, 2, 2, 10, 1);
    PlainLimit(f, true, 2, 2, 10, 1);
    assert VACANT.limits + [Resting(2, 6, false)] == [Resting(2, 6, false)];
    assert Pushed(EMPTY, 2, Limits, Resting(2, 6, false)) == SIXBID;
    hide Pushed;
  }

  lemma PartTrades(f: Floor)
    requires f == Still(FOURASKED, 0, 2, 2)
    ensures Sent(f, false, 2, 2, 10, 1) ==
      Passed(Still(EMPTY, 0, 4, 2).(tape := [Sale(2, 4, 2, 1)], last := 2), 6, false)
  {
    AskFilled(FOURASKED, 2, 1, 4, 10);
    assert FOURASKED[2 := VACANT] == EMPTY;
    NoneOutward(EMPTY, false, 2);
    OneSale(2, 4, 2, 1);
    hide Match, Outward, SalesOf;
    assert [] + [Sale(2, 4, 2, 1)] == [Sale(2, 4, 2, 1)];
    NothingDue(Matched(f, false, 2, 2, 10, 1).f);
  }

  /* ---- stops of both sides that are not due ---- */

  const SEVEN: seq<Level> := [VACANT, VACANT, VACANT, VACANT, VACANT, VACANT, VACANT]
  const SELLBELOW := Stop(1, 1, false, 0)
  const BUYABOVE := Stop(2, 1, true, 0)
  const STOPPED2: seq<Level> :=
    [VACANT, VACANT, Level([], [SELLBELOW], [], []), VACANT, VACANT, Level([], [BUYABOVE], [], []), VACANT]
  const STOPPED3: seq<Level> := STOPPED2[3 := Level([Resting(3, 1, false)], [], [], [])]

  /** A floor of six prices with a sell stop at 2 and a buy stop at 5. */
  function Fenced(book: seq<Level>, ask: nat, lastId: nat): Floor {
    Floor(book, 0, ask, 5, 5, 2, 2, [], 0, false, [], lastId)
  }

  /** A sell stop at 2, a buy stop at 5, a sell at 3, a buy at 3: that trade is above the one and below the
      other, so both stay. */
  lemma UndueStay(n: nat)
    ensures var f1 := Windowed(Opening(7), StopAt(false, 2), 1, n).f;
      var f2 := Windowed(f1, StopAt(true, 5), 1, n).f;
      var f3 := Windowed(f2, LimitTicket(false, 3, 1, Plain), 1, n).f;
      var r := Windowed(f3, LimitTicket(true, 3, 1, Plain), 1, n);
      !r.fault && r.f.tape == [Sale(3, 1, 4, 3)] && r.f.last == 3 && r.f.book == STOPPED2 && r.f.queue == []
  {
    hide Windowed, Orderly, StopRested;
    var f0 := Opening(7);
    assert f0 == Floor(SEVEN, 0, 7, 7, 0, 7, 0, [], 0, false, [], 0) by {
      assert Opening(7).book == SEVEN;
    }
    SevenOrderly();
    var f1 := StopRests(f0, StopAt(false, 2), n);
    var f2 := StopRests(f1, StopAt(true, 5), n);
    TwoStopsRest(f0, f1, f2);
    FencedAsk(f2, n);
    FencedTrade(n);
  }

  lemma SevenOrderly()
    ensures Orderly(Floor(SEVEN, 0, 7, 7, 0, 7, 0, [], 0, false, [], 0))
  {
  }

  lemma TwoStopsRest(f0: Floor, f1: Floor, f2: Floor)
    requires f0 == Floor(SEVEN, 0, 7, 7, 0, 7, 0, [], 0, false, [], 0)
    requires f1 == StopRested(f0.(lastId := 1), 2, SELLBELOW)
    requires |f1.book| == 7 && f2 == StopRested(f1.(lastId := 2), 5, BUYABOVE)
    ensures f2 == Fenced(STOPPED2, 7, 2)
  {
    assert VACANT.stops + [SELLBELOW] == [SELLBELOW] && VACANT.stops + [BUYABOVE] == [BUYABOVE];
    assert f1.book == SEVEN[2 := Level([], [SELLBELOW], [], [])];
    assert f2.book == STOPPED2;
  }

  lemma FencedAsk(f: Floor, n: nat)
    requires f == Fenced(STOPPED2, 7, 2)
    ensures Windowed(f, LimitTicket(false, 3, 1, Plain), 1, n) == Passed(Fenced(STOPPED3, 3, 3), 0, false)
  {
    hide Windowed, Looked;
    JustRests(f, LimitTicket(false, 3, 1, Plain), 1, n);
    assert VACANT.limits + [Resting(3, 1, false)] == [Resting(3, 1, false)];
    assert Pushed(STOPPED2, 3, Limits, Resting(3, 1, false)) == STOPPED3;
  }

  lemma FencedTrade(n: nat)
    ensures var r := Windowed(Fenced(STOPPED3, 3, 3), LimitTicket(true, 3, 1, Plain), 1, n);
      !r.fault && r.f.tape == [Sale(3, 1, 4, 3)] && r.f.last == 3 && r.f.book == STOPPED2 && r.f.queue == []
  {
    var f := Fenced(STOPPED3, 3, 4);
    FencedSent(f);
    FencedEntered(f);
    hide Entered, Sent;
  }

  lemma FencedEntered(f: Floor)
    requires f == Fenced(STOPPED3, 3, 4)
    ensures Entered(f, LimitTicket(true, 3, 1, Plain).(id := 4), 1) ==
      ThenRests(Sent(f, false, 3, 4, 1, 1), true, 3, 4).(left := 0)
  {
    hide Sent, LimitPass;
    PlainLimit(f, true, 3, 4, 1, 1);
  }

  lemma FencedSent(f: Floor)
    requires f == Fenced(STOPPED3, 3, 4)
    ensures Sent(f, false, 3, 4, 1, 1) ==
      Passed(Fenced(STOPPED2, 7, 4).(tape := [Sale(3, 1, 4, 3)], last := 3), 0, false)
  {
    AskFilled(STOPPED3, 3, 3, 1, 1);
    assert STOPPED3[3 := VACANT] == STOPPED2;
    NoneOutward(STOPPED2, false, 3);
    OneSale(3, 1, 4, 3);
    hide Match, Outward, SalesOf;
    assert [] + [Sale(3, 1, 4, 3)] == [Sale(3, 1, 4, 3)];
    NothingDue(Matched(f, false, 3, 4, 1, 1).f);
  }

  /* ---- what a stop with a limit becomes ---- */

  const SIX: seq<Level> := [VACANT, VACANT, VACANT, VACANT, VACANT, VACANT]
  const WITHLIMIT := Stop(1, 5, true, 3)
  const ARMED: seq<Level> := SIX[2 := Level([], [WITHLIMIT], [], [])]
  const OPPOSED: seq<Level> := SIX[2 := Level([Resting(2, 1, false)], [WITHLIMIT], [], [])]
  const SPRUNG: seq<Level> := SIX[3 := Level([Resting(4, 5, false)], [], [], [])]

  function Armed(book: seq<Level>, ask: nat, lastId: nat): Floor {
    Floor(book, 0, ask, 2, 2, 6, 0, [], 0, false, [], lastId)
  }

  /** A buy stop of 5 at 2 with limit 3, a sell of 1 at 2, a buy of 1 at 2: the stop becomes a buy of 5 at 3,
      which meets no one and rests. */
  lemma StopLimitRests(n: nat)
    requires n > 0
    ensures var f1 := Windowed(Opening(6), Ticket(StopLimit, true, 3, 2, 5, Plain, 0), 1, n).f;
      var f2 := Windowed(f1, LimitTicket(false, 2, 1, Plain), 1, n).f;
      var r := Windowed(f2, LimitTicket(true, 2, 1, Plain), 1, n);
      !r.fault && r.left == 0 && r.f.tape == [Sale(2, 1, 3, 2)] && r.f.book == SPRUNG && r.f.queue == []
  {
    hide Windowed, Orderly, StopRested;
    var f0 := Opening(6);
    assert f0 == Floor(SIX, 0, 6, 6, 0, 6, 0, [], 0, false, [], 0) by {
      assert Opening(6).book == SIX;
    }
    SixOrderly();
    var f1 := StopRests(f0, Ticket(StopLimit, true, 3, 2, 5, Plain, 0), n);
    ArmedIs(f0, f1);
    ArmedAsk(f1, n);
    ArmedTrade(n);
  }

  lemma SixOrderly()
    ensures Orderly(Floor(SIX, 0, 6, 6, 0, 6, 0, [], 0, false, [], 0))
  {
  }

  lemma ArmedIs(f0: Floor, f1: Floor)
    requires f0 == Floor(SIX, 0, 6, 6, 0, 6, 0, [], 0, false, [], 0)
    requires f1 == StopRested(f0.(lastId := 1), 2, WITHLIMIT)
    ensures f1 == Armed(ARMED, 6, 1)
  {
    assert VACANT.stops + [WITHLIMIT] == [WITHLIMIT];
    assert f1.book == ARMED;
  }

  lemma ArmedAsk(f: Floor, n: nat)
    requires f == Armed(ARMED, 6, 1)
    ensures Windowed(f, LimitTicket(false, 2, 1, Plain), 1, n) == Passed(Armed(OPPOSED, 2, 2), 0, false)
  {
    hide Windowed, Looked;
    JustRests(f, LimitTicket(false, 2, 1, Plain), 1, n);
    assert VACANT.limits + [Resting(2, 1, false)] == [Resting(2, 1, false)];
    assert Pushed(ARMED, 2, Limits, Resting(2, 1, false)) == OPPOSED;
  }

  const NEXT := Floor(SIX, 0, 6, 6, 0, 6, 0, [Sale(2, 1, 3, 2)], 2, false,
    [Ticket(LimitOrder, true, 3, 0, 5, Plain, 4)], 4)

  lemma ArmedTrade(n: nat)
    requires n > 0
    ensures var r := Windowed(Armed(OPPOSED, 2, 2), LimitTicket(true, 2, 1, Plain), 1, n);
      !r.fault && r.left == 0 && r.f.tape == [Sale(2, 1, 3, 2)] && r.f.book == SPRUNG && r.f.queue == []
  {
    var f := Armed(OPPOSED, 2, 3);
    ArmedSent(f);
    ArmedEntered(f);
    SprungEnters(n);
    hide Entered, Drained;
  }

  lemma ArmedEntered(f: Floor)
    requires f == Armed(OPPOSED, 2, 3) && Sent(f, false, 2, 3, 1, 1) == Passed(NEXT, 0, false)
    ensures Entered(f, LimitTicket(true, 2, 1, Plain).(id := 3), 1) == Passed(NEXT, 0, false)
  {
    hide Sent, LimitPass;
    PlainLimit(f, true, 2, 3, 1, 1);
  }

  lemma ArmedSent(f: Floor)
    requires f == Armed(OPPOSED, 2, 3)
    ensures Sent(f, false, 2, 3, 1, 1) == Passed(NEXT, 0, false)
  {
    AskFilled(OPPOSED, 2, 2, 1, 1);
    assert OPPOSED[2 := Level([], [WITHLIMIT], [], [])] == ARMED;
    NoneOutward(ARMED, false, 2);
    OneSale(2, 1, 3, 2);
    hide Match, Outward, SalesOf;
    assert [] + [Sale(2, 1, 3, 2)] == [Sale(2, 1, 3, 2)];
    ArmedChecked(Matched(f, false, 2, 3, 1, 1).f);
  }

  lemma ArmedChecked(g: Floor)
    requires g == Armed(ARMED, 6, 3).(tape := [Sale(2, 1, 3, 2)], last := 2, check := true)
    ensures Checked(g) == NEXT
  {
    assert Swept(Swept(ARMED, 2, 2), 2, 0) == SIX;
    assert SweptUp(ARMED, 3, 2) == [] && [WITHLIMIT] + [] == [WITHLIMIT];
    assert SweptUp(ARMED, 2, 2) == [WITHLIMIT];
    assert DueStops(g) == [WITHLIMIT] + [];
    assert Tickets([WITHLIMIT][1..], 4) == [];
    assert Tickets([WITHLIMIT], 3) == [Ticket(LimitOrder, true, 3, 0, 5, Plain, 4)];
  }

  lemma SprungEnters(n: nat)
    requires n > 0
    ensures var r := Drained(NEXT, 1, n);
      !r.fault && r.left == 0 && r.f.tape == [Sale(2, 1, 3, 2)] && r.f.book == SPRUNG && r.f.queue == []
  {
    var f := NEXT.(queue := []);
    assert NEXT.queue[1..] == [];
    FiveRests(f);
    hide Entered;
    var g := f.(book := SPRUNG, bid := 3);
    assert Drained(g, 1, n - 1) == Passed(g, 0, false);
  }

  lemma NoAsks(f: Floor)
    requires f == NEXT.(queue := [])
    ensures !Tradable(f, false, 3)
  {
  }

  lemma FiveRests(f: Floor)
    requires f == NEXT.(queue := [])
    ensures Entered(f, Ticket(LimitOrder, true, 3, 0, 5, Plain, 4), 1) == Passed(f.(book := SPRUNG, bid := 3), 0, false)
  {
    hide LimitPass, Sent, Tradable;
    NoAsks(f);
    Untradable(f, false, 3, 4, 5, 1);
    PlainLimit(f, true, 3, 4, 5, 1);
    assert VACANT.limits + [Resting(4, 5, false)] == [Resting(4, 5, false)];
    assert Pushed(SIX, 3, Limits, Resting(4, 5, false)) == SPRUNG;
  }
}
