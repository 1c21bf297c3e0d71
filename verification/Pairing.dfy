/** One-cancels-other pairs entering the order book. */
module Pairing {
  import opened Ladder
  import opened Matcher
  import opened Priority
  import opened Desk
  import opened Edges
  import opened Overlaps
  import opened Sweep
  import opened Reference
  import opened Plain
  import opened Groundwork
  import opened Orderbook
  import opened OneCancels
  import opened Worlds

  /** A book without all-or-none orders is orderly between windows. */
  lemma OrderlyNow(o: Book)
    requires o.Idle() && PlainBook(o.book) && !o.needCheck
    ensures Orderly(o.F()) && |o.book| > 1
  {
    hide Unique, Found, Sided, Queued, Posted, FarLimits, AonEdges, StopEdges, PlainBook, Volume, Taped, StopsPriced,
      QueuePriced, NearAons;
    Roomy(o);
    StopsInside(o.book, o.E());
    forall p, k, b | 0 <= p < |o.book| && b in Chain(o.book[p], k) ensures b.id <= o.lastId && b.sz > 0 {
      AonTallies(o.D(), p, k, b);
    }
    assert IdsUpTo(o.book, o.lastId);
    assert AllSized(o.book);
  }

  lemma StopsInside(book: seq<Level>, e: Edge)
    requires Covered(book, e)
    ensures e.highSellStop < |book|
  {
  }

  lemma ChainsSwept(f: Floor)
    ensures forall r :: 0 <= r < |f.book| ==> Settled(f).book[r].limits == f.book[r].limits
  {
  }

  lemma RestedChains(f: Floor, isBuy: bool, p: nat, id: nat, sz: nat)
    requires 0 < p < |f.book|
    ensures var g := Rested(f, isBuy, p, id, sz, false);
      forall r, b :: 0 <= r < |f.book| ==>
        && (b in f.book[r].limits ==> b in g.book[r].limits)
        && (b in g.book[r].limits ==> b in f.book[r].limits || b.id == id)
  {
  }

  /** The limit chains once a limit order has entered: whom it traded with may be gone, nobody
      else is, and nobody but the new order came. */
  lemma LimitChains(f: Floor, t: Ticket, base: nat)
    requires |f.book| > 1 && Acceptable(t, base, |f.book|) && t.otype.LimitOrder? && t.cond.Plain? && Orderly(f)
    ensures var g := Enters(f, t, base).f;
      && |g.book| == |f.book|
      && (forall r: nat, b :: r < |f.book| && b in g.book[r].limits ==>
        HasId(f.book[r].limits, b.id) || b.id == f.lastId + 1)
      && (forall r: nat, b :: r < |f.book| && b in f.book[r].limits && !Made(FillsOf(f, t, base), b.id) ==>
        b in g.book[r].limits)
  {
    hide Match, Entered, PlainBook, AllSized, IdsUpTo, Rested, SalesOf, Outward, Settled;
    var p := LevelOf(t.limit, base);
    var f1 := f.(lastId := f.lastId + 1);
    LimitIs(f, t, base);
    MatchKeeps(f.book, !t.isBuy, InsideLevel(f, !t.isBuy), Outermost(!t.isBuy, |f.book|), p, t.sz);
    var m := Matched(f1, !t.isBuy, p, f1.lastId, t.sz, base);
    ChainsSwept(m.f);
    var r := Sent(f1, !t.isBuy, p, f1.lastId, t.sz, base);
    RestedChains(r.f, t.isBuy, p, f1.lastId, r.left);
    var g := Enters(f, t, base).f;
    forall r: nat, b | r < |f.book| && b in g.book[r].limits
      ensures HasId(f.book[r].limits, b.id) || b.id == f.lastId + 1 {
      assert LevelKept(f.book[r].limits, m.f.book[r].limits, FillsOf(f, t, base));
    }
    forall r: nat, b | r < |f.book| && b in f.book[r].limits && !Made(FillsOf(f, t, base), b.id)
      ensures b in g.book[r].limits {
      assert LevelKept(f.book[r].limits, m.f.book[r].limits, FillsOf(f, t, base));
    }
  }

  /** The first order is at p of the limit chains, and the second has traded: the first still is. */
  lemma FirstLimitStays(f: Floor, first: Ticket, second: Ticket, base: nat)
    requires |f.book| > 1 && AcceptablePair(first, second, base, |f.book|) && Orderly(f) && first.otype.LimitOrder?
      && second.otype.LimitOrder?
    requires Enters(f, first, base).f.tape == f.tape
    ensures var g := Enters(f, first, base).f;
      var p := LevelOf(first.limit, base);
      var h := Enters(g, second, base).f;
      |h.book| == |f.book| && Resting(f.lastId + 1, first.sz, false) in h.book[p].limits
  {
    hide Entered, PlainBook, AllSized, IdsUpTo, Match, LimitRested;
    var id1 := f.lastId + 1;
    var g := Enters(f, first, base).f;
    var p := LevelOf(first.limit, base);
    LimitRests(f, first, base);
    RestsThere(f, first.isBuy, p, Resting(id1, first.sz, false));
    LimitChains(g, second, base);
    if Made(FillsOf(g, second, base), id1) {
      var x :| x in FillsOf(g, second, base) && x.maker == id1;
      MakerRests(g, !second.isBuy, LevelOf(second.limit, base), second.sz, x);
    }
  }

  lemma RestsThere(f: Floor, isBuy: bool, p: nat, b: Bundle)
    requires 0 < p < |f.book|
    ensures b in LimitRested(f.(lastId := f.lastId + 1), isBuy, p, b).book[p].limits
  {
  }

  /** Cached orders are in the book, and those in the book are cached. */
  lemma InCache(o: Book, id: nat)
    requires o.Valid() && PlainBook(o.book)
    ensures id in o.cache <==> exists r: nat, b ::
      r < |o.book| && (b in o.book[r].stops || b in o.book[r].limits) && b.id == id
  {
    hide Unique, Tallied, Sided, Queued, Audited, Handled, Posted, Covered, Volume, Taped, StopsPriced, QueuePriced,
      NearAons;
    if id in o.cache {
      var pl := o.cache[id];
      var b :| b in Chain(o.book[pl.level], pl.kind) && b.id == id;
    }
    if r: nat, b :| r < |o.book| && (b in o.book[r].stops || b in o.book[r].limits) && b.id == id {
      assert b in Chain(o.book[r], Stops) || b in Chain(o.book[r], Limits);
    }
  }

  /** When the second order has traded, the first is gone exactly if the pair is spoilt. */
  lemma FirstGone(f: Floor, first: Ticket, second: Ticket, o: Book)
    requires |f.book| > 1 && AcceptablePair(first, second, o.base, |f.book|) && Orderly(f) && second.otype.LimitOrder?
    requires Enters(f, first, o.base).f.tape == f.tape && |Enters(f, first, o.base).f.book| == |f.book|
    requires var g := Enters(f, first, o.base).f; o.F() == Enters(g, second, o.base).f && |g.tape| < |o.timesales|
    requires o.Valid() && PlainBook(o.book)
    ensures f.lastId + 1 !in o.cache <==> Spoils(f, first, second, o.base)
  {
    hide Entered, PlainBook, AllSized, IdsUpTo, Match, Looked, SalesOf, StopRested, Book.Valid, Spoils, Spoilt;
    var id1 := f.lastId + 1;
    InCache(o, id1);
    SpoiltIff(f, first, second, o.base);
    if first.otype.LimitOrder? {
      FirstLimitStays(f, first, second, o.base);
      LimitFirst(f, first, second, o.base);
    } else {
      StopGoes(f, first, second, o);
    }
  }

  lemma StopGoes(f: Floor, first: Ticket, second: Ticket, o: Book)
    requires |f.book| > 1 && AcceptablePair(first, second, o.base, |f.book|) && Orderly(f) && StopTicket(first)
      && second.otype.LimitOrder?
    requires var g := Enters(f, first, o.base).f;
      |g.book| == |f.book| && o.F() == Enters(g, second, o.base).f && |g.tape| < |o.timesales|
    ensures (exists r: nat, b ::
      r < |o.book| && (b in o.book[r].stops || b in o.book[r].limits) && b.id == f.lastId + 1)
      <==> !Spoilt(f, first, second, o.base)
  {
    hide Entered, PlainBook, AllSized, IdsUpTo, Match, Looked, SalesOf, StopRested;
    var id1 := f.lastId + 1;
    var g := Enters(f, first, o.base).f;
    StopEnters(f, first, o.base);
    LimitEnters(g, second, o.base);
    LimitChains(g, second, o.base);
    var fills := FillsOf(g, second, o.base);
    SalesCount(fills, id1 + 1, o.base);
    SoldIff(g, o.F(), fills, id1 + 1, o.base);
    NotAmong(f, id1);
    NotAmong(g, id1 + 1);
    assert RestsAsStop(g, id1);
    if Sold(g, o.F(), id1) {
      var x :| x in fills && x.maker == id1;
      MakerRests(g, !second.isBuy, LevelOf(second.limit, o.base), second.sz, x);
    }
    forall r: nat, b | r < |o.book| && b in o.book[r].limits ensures b.id != id1 {
      assert HasId(g.book[r].limits, b.id) || b.id == id1 + 1;
    }
  }

  /** Nothing is spoilt if the first order trades, or the second does not. */
  lemma UnspoiltFirst(f: Floor, first: Ticket, second: Ticket, base: nat)
    requires |f.book| > 1 && AcceptablePair(first, second, base, |f.book|) && Orderly(f)
    ensures Enters(f, first, base).f.tape != f.tape ==> !Spoils(f, first, second, base)
    ensures Enters(f, first, base).f.tape == f.tape ==>
      var g := Enters(f, first, base).f;
      |g.book| == |f.book| && g.queue == f.queue && Orderly(g) && g.lastId == f.lastId + 1
  {
    hide Entered, PlainBook, AllSized, IdsUpTo, Looked, Reached;
    if first.otype.LimitOrder? {
      if Enters(f, first, base).f.tape == f.tape {
        LimitRests(f, first, base);
      }
    } else {
      StopEnters(f, first, base);
    }
  }

  lemma UnspoiltSecond(f: Floor, first: Ticket, second: Ticket, base: nat)
    requires |f.book| > 1 && AcceptablePair(first, second, base, |f.book|) && Orderly(f)
    requires var g := Enters(f, first, base).f;
      g.tape == f.tape && |g.book| == |f.book| && Orderly(g) && g.lastId == f.lastId + 1
        && Enters(g, second, base).f.tape == g.tape
    ensures !Spoils(f, first, second, base)
  {
    hide Entered, PlainBook, AllSized, IdsUpTo, Spoils, Snug;
    var g := Enters(f, first, base).f;
    SpoiltIff(f, first, second, base);
    Unsold(g, Enters(g, second, base).f, g.lastId + 1);
    NotAmong(g, g.lastId + 1);
  }

  /** One order of a pair enters. */
  method EnterLeg(o: Book, t: Ticket)
    requires o.Idle() && PlainBook(o.book) && !o.needCheck && o.Accepts(t) && !t.cond.AllOrNone? && !t.otype.Market?
    modifies o
    ensures |old(o.book)| > 1 && |o.book| == |old(o.book)| && o.base == old(o.base)
    ensures o.Valid() && InWork(o.queue, o.hand, {}) && PlainBook(o.book) && !o.needCheck
    ensures o.F() == Enters(old(o.F()), t, o.base).f
    ensures Carried(old(o.ledger), o.ledger, {}) && old(o.lastId) + 1 in o.ledger
  {
    hide Book.Sound, Carried, PlainBook, Acceptable, NearAons, StopsPriced, QueuePriced, StopIds, LimitPass, MarketPass,
      Book.Steady, Ok, Covered, Audited, Posted, Book.Stats, StopRested, InBook;
    Roomy(o);
    var id;
    ghost var w;
    id, w := o.NewOrder(t.isBuy, t.sz, t.cond.AllOrNone?);
    CarryNew(old(o.ledger), id, w.ledger);
    Renamed(t, id, o.base, |o.book|);
    EnteredPlain(o.F(), t.(id := id), o.base);
    var st := o.InsertOrder(t.(id := id), w);
    assert st.Done?;
    CarryOn(old(o.ledger), w.ledger, o, w);
    CarriedTerms(w.ledger, o.ledger, Off(w).keep, id);
  }

  /** A pair has entered: the first order, and if it did not trade the second, for which the first
      is taken out of the book if the second traded. */
  ghost function PairEntered(f: Floor, first: Ticket, second: Ticket, base: nat): (r: Floor)
    requires |f.book| > 1 && AcceptablePair(first, second, base, |f.book|)
    ensures |r.book| == |f.book|
  {
    var g := Enters(f, first, base).f;
    if g.tape != f.tape then g
    else
      var h := Enters(g, second, base).f;
      if h.tape != g.tape then Removed(h, f.lastId + 1).f else h
  }

  /** The second order entered and traded, so that the first is to be out of the book. */
  ghost predicate SecondTrades(f: Floor, first: Ticket, second: Ticket, base: nat)
    requires |f.book| > 1 && AcceptablePair(first, second, base, |f.book|)
  {
    var g := Enters(f, first, base).f;
    g.tape == f.tape && Enters(g, second, base).f.tape != g.tape
  }

  lemma PairIs(f: Floor, g: Floor, h: Floor, first: Ticket, second: Ticket, base: nat)
    requires |f.book| > 1 && AcceptablePair(first, second, base, |f.book|)
    requires g == Enters(f, first, base).f && g.tape == f.tape && h == Enters(g, second, base).f
    ensures PairEntered(f, first, second, base) == if h.tape != g.tape then Removed(h, f.lastId + 1).f else h
    ensures SecondTrades(f, first, second, base) <==> h.tape != g.tape
  {
    hide Enters, Removed, AcceptablePair, Acceptable;
  }

  lemma PairStops(f: Floor, first: Ticket, second: Ticket, base: nat)
    requires |f.book| > 1 && AcceptablePair(first, second, base, |f.book|) && Enters(f, first, base).f.tape != f.tape
    ensures PairEntered(f, first, second, base) == Enters(f, first, base).f && !SecondTrades(f, first, second, base)
  {
    hide Enters, Removed, AcceptablePair, Acceptable;
  }

  /** An order is taken out of the book. */
  method TakeOut(o: Book, id: nat)
    requires o.Valid() && InWork(o.queue, o.hand, {}) && PlainBook(o.book) && !o.needCheck && id in o.cache
    modifies o
    ensures |o.book| == |old(o.book)| && o.base == old(o.base)
    ensures o.Valid() && InWork(o.queue, o.hand, {}) && PlainBook(o.book) && !o.needCheck
    ensures id !in o.cache && o.F() == Removed(old(o.F()), id).f && id in o.ledger && o.queue == old(o.queue)
  {
    hide Book.Valid, PlainBook, Located, PullFaults, Pulled, Cut, PulledFloor, Removed;
    RestsInPlace(o, id);
    PulledPlain(o.book, o.cache, o.ask, id);
    RemovedIs(o, id);
    PulledBook(o.F(), o.cache, id);
    var st, found := o.PullOrder(id);
  }

  lemma PulledBook(f: Floor, cache: map<nat, Place>, id: nat)
    requires Located(f.book, cache, id)
    ensures PulledFloor(f, cache, id).book == Pulled(f.book, cache, id)
  {
    hide Pulled, Outward;
  }

  /** The order id is done with: nothing of it is open. */
  ghost predicate Closed(o: Book, id: nat)
    reads o`ledger, o`cache
  {
    id in o.ledger && Open(o.ledger[id]) <= 0 && id !in o.cache
  }

  lemma GoneIsClosed(o: Book, id: nat)
    requires o.Valid() && InWork(o.queue, o.hand, {}) && id in o.ledger && id !in o.cache
    requires forall t :: t in o.queue ==> t.id != id
    ensures Closed(o, id)
  {
    hide Covered, Named, Unique, Found, Tallied, Sided, Queued, Handled, Posted, StopsPriced, QueuePriced, Volume;
  }

  /** What entering an order queues has new ids. */
  lemma NewInQueue(f: Floor, t: Ticket, base: nat)
    requires |f.book| > 1 && Acceptable(t, base, |f.book|) && t.otype.LimitOrder? && t.cond.Plain? && Orderly(f)
    requires f.queue == []
    ensures forall q :: q in Enters(f, t, base).f.queue ==> q.id > f.lastId + 1
  {
    hide Entered, PlainBook, AllSized, IdsUpTo, Matched, DueStops, Pushed;
    LimitIs(f, t, base);
    var m := Matched(f.(lastId := f.lastId + 1), !t.isBuy, LevelOf(t.limit, base), f.lastId + 1, t.sz, base).f;
    TicketsNew(DueStops(m), m.lastId);
  }

  lemma {:induction false} TicketsNew(bs: seq<Bundle>, id: nat)
    ensures forall t :: t in Tickets(bs, id) ==> t.id > id
  {
    if bs != [] {
      TicketsNew(bs[1..], id + 1);
    }
  }

  lemma StaysClosed(o: Book, ledger: map<nat, Account>, id: nat)
    requires o.Valid() && id in ledger && Open(ledger[id]) <= 0 && Carried(ledger, o.ledger, {})
    ensures id !in o.cache
  {
    NotResting(o, id);
  }

  lemma RemovedIs(o: Book, id: nat)
    requires o.Valid()
    ensures id in o.cache <==> Rests(o.book, id)
    ensures id in o.cache ==>
      && Located(o.book, o.cache, id)
      && (!PullFaults(o.book, o.cache, o.ask, id) ==> Removed(o.F(), id).f == PulledFloor(o.F(), o.cache, id))
    ensures id !in o.cache ==> Removed(o.F(), id).f == o.F()
  {
    hide Ok, Covered, PulledFloor, PullFaults;
    CacheSpots(o.D(), id);
    if id in o.cache {
      PulledBySpot(o.F(), o.cache, id);
    }
  }

  /** The first order, and if it did not trade the second, which takes the first out of the book if
      it trades itself. */
  method EnterLegs(o: Book, first: Ticket, second: Ticket) returns (both: bool)
    requires o.Idle() && PlainBook(o.book) && !o.needCheck && AcceptablePair(first, second, o.base, |o.book|)
    modifies o
    ensures |old(o.book)| > 1 && |o.book| == |old(o.book)| && o.base == old(o.base)
    ensures o.Valid() && InWork(o.queue, o.hand, {}) && PlainBook(o.book) && !o.needCheck
    ensures o.F() == PairEntered(old(o.F()), first, second, o.base)
    ensures both <==> Spoilt(old(o.F()), first, second, o.base)
    ensures both <==> Spoils(old(o.F()), first, second, o.base)
    ensures SecondTrades(old(o.F()), first, second, o.base) ==> Closed(o, old(o.lastId) + 1)
  {
    hide Spoils, Spoilt, Entered, Enters, PlainBook, Book.Valid, Book.Sound, Acceptable, NearAons, StopsPriced,
      QueuePriced, Orderly, PairEntered, SecondTrades, InWork, Removed, Closed, Carried;
    ghost var f := o.F();
    var n := |o.timesales|;
    OrderlyNow(o);
    PairAcceptable(first, second, o.base, |o.book|);
    UnspoiltFirst(f, first, second, o.base);
    SpoiltIff(f, first, second, o.base);
    EnterLeg(o, first);
    GrowsOnly(f, first, o.base);
    var id1 := o.lastId;
    if |o.timesales| > n {
      PairStops(f, first, second, o.base);
      return false;
    }
    NothingQueued(o.queue, o.hand);
    ghost var g, ledger := o.F(), o.ledger;
    EnterLeg(o, second);
    CarriedTerms(ledger, o.ledger, {}, id1);
    GrowsOnly(g, second, o.base);
    PairIs(f, g, o.F(), first, second, o.base);
    if |o.timesales| == n {
      UnspoiltSecond(f, first, second, o.base);
      return false;
    }
    SecondIsLimit(g, second, o.base);
    FirstGone(f, first, second, o);
    both := id1 !in o.cache;
    RemovedIs(o, id1);
    NewInQueue(g, second, o.base);
    if !both {
      TakeOut(o, id1);
    }
    GoneIsClosed(o, id1);
  }

  /** The tape only grows, and is the same if it is no longer. */
  lemma GrowsOnly(f: Floor, t: Ticket, base: nat)
    requires |f.book| > 1 && Acceptable(t, base, |f.book|) && Orderly(f) && t.cond.Plain? && !t.otype.Market?
    ensures var g := Enters(f, t, base).f; |g.tape| >= |f.tape| && (|g.tape| == |f.tape| ==> g.tape == f.tape)
  {
    hide Entered, PlainBook, AllSized, IdsUpTo, SalesOf;
    if t.otype.LimitOrder? {
      LimitEnters(f, t, base);
      SalesCount(FillsOf(f, t, base), f.lastId + 1, base);
    } else {
      StopEnters(f, t, base);
    }
  }

  lemma SecondIsLimit(f: Floor, t: Ticket, base: nat)
    requires |f.book| > 1 && Acceptable(t, base, |f.book|) && Orderly(f) && t.cond.Plain? && !t.otype.Market?
    ensures Enters(f, t, base).f.tape != f.tape ==> t.otype.LimitOrder?
  {
    hide Entered, PlainBook, AllSized, IdsUpTo;
    if !t.otype.LimitOrder? {
      StopEnters(f, t, base);
    }
  }

  /** One window: a pair enters a book without all-or-none orders, and then what it gives rise to.
      Both orders trade or are triggered before they are linked exactly in the case that can be told
      beforehand; and whenever the second trades the first does not rest any more. */
  method EnterPair(o: Book, first: Ticket, second: Ticket) returns (both: bool, st: Status)
    requires o.Idle() && PlainBook(o.book) && !o.needCheck && AcceptablePair(first, second, o.base, |o.book|)
    modifies o
    ensures |old(o.book)| > 1 && |o.book| == |old(o.book)| && o.base == old(o.base)
    ensures o.Idle() && PlainBook(o.book) && !o.needCheck
    ensures var p := PairEntered(old(o.F()), first, second, o.base);
      var r := Drained(p, o.base, Upcoming(p));
      Ends(st, r) && !r.fault && o.F() == r.f
    ensures both <==> Spoilt(old(o.F()), first, second, o.base)
    ensures both <==> Spoils(old(o.F()), first, second, o.base)
    ensures SecondTrades(old(o.F()), first, second, o.base) ==> old(o.lastId) + 1 !in o.cache
  {
    hide Spoils, Spoilt, PlainBook, Book.Valid, InWork, AcceptablePair, Drained, Carried, PairEntered, SecondTrades,
      StopIds, StopCount;
    ghost var id1 := o.lastId + 1;
    both := EnterLegs(o, first, second);
    ghost var n := Upcoming(o.F());
    EnoughForAll(o);
    ghost var ledger := o.ledger;
    st := o.RunQueue(n);
    if id1 in ledger && Open(ledger[id1]) <= 0 {
      StaysClosed(o, ledger, id1);
    }
  }

  lemma EnoughForAll(o: Book)
    requires o.Valid()
    ensures Upcoming(o.F()) >= o.Pending()
  {
    hide Ok, Covered;
    StopsCounted(o.D());
  }

  lemma PairAcceptable(first: Ticket, second: Ticket, base: nat, n: nat)
    requires AcceptablePair(first, second, base, n)
    ensures Acceptable(first, base, n) && Acceptable(second, base, n)
    ensures first.cond.Plain? && second.cond.Plain? && !first.otype.Market? && !second.otype.Market?
  {
  }
}
