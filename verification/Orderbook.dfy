/** The order book: matching, contingent stops and the execution window. */
module Orderbook {
  import opened Ladder
  import opened Matcher
  import opened Desk
  import opened Edges
  import opened Growth
  import opened Sweep
  import opened Overlaps
  import opened Reference
  import opened Plain
  import opened Groundwork
  import Arrivals

  /* ---- what the methods of Book rely on ---- */

  /** Before a trade everything to hit on a side lies from begin to end. */
  lemma QuietOutsideEdges(o: Book, bids: bool, size: nat, w: Job)
    requires o.Working(w, size)
    ensures |o.book| > 1 && OnBook(|o.book|, bids, Outermost(bids, |o.book|), 1)
      && (if bids then o.Begin(bids) < |o.book| else 0 < o.Begin(bids) <= |o.book|)
    ensures o.bid < o.ask
    ensures forall r :: 0 < r < |o.book| && Beyond(bids, r, o.Begin(bids)) && r != o.Begin(bids) ==>
      Quiet(o.book[r], bids, OnSide(bids, r, o.Best(bids)))
    ensures forall r :: 0 < r < |o.book| && !InsideOf(bids, r, o.End(bids)) ==>
      Quiet(o.book[r], bids, OnSide(bids, r, o.Best(bids)))
  {
    hide Tallied, Sided, Queued, Audited, Handled, Posted, Named, Unique, Found, Holding, Carried, StopIds, StopEdges;
    forall r | 0 < r < |o.book| && (!Beyond(bids, o.Begin(bids), r) || !InsideOf(bids, r, o.End(bids)))
      ensures Quiet(o.book[r], bids, OnSide(bids, r, o.Best(bids)))
    {
      QuietOutside(o.book, o.E(), bids, r);
    }
  }

  /** While a side is being hit its limit chains stay recognisable. */
  lemma SameSide(o: Book, bids: bool, inside: nat, p: nat, size: nat, w: Job)
    requires o.Working(w, size) && p < |o.book| && Beyond(bids, inside, o.Best(bids))
      && (if bids then inside < o.ask else inside > o.bid)
    ensures HitLevel(o.book[p], bids, OnSide(bids, p, inside), p, size) ==
      HitLevel(o.book[p], bids, OnSide(bids, p, o.Best(bids)), p, size)
  {
    hide Ok, Holding, Carried, StopIds, StopEdges, AonEdges;
  }

  /** The levels a jump passes over have nothing to hit. */
  lemma QuietJump(o: Book, bids: bool, inside: nat, size: nat, w: Job)
    requires o.Working(w, size) && Beyond(bids, inside, o.Best(bids))
      && (if bids then inside < o.ask else inside > o.bid)
    ensures forall r :: 0 < r < |o.book| && Beyond(bids, r, o.Begin(bids)) && r != o.Begin(bids) ==>
      Quiet(o.book[r], bids, OnSide(bids, r, inside))
    ensures if bids then o.Begin(bids) < |o.book| else 0 < o.Begin(bids) <= |o.book|
  {
    hide Ok, Holding, Carried, StopIds, StopEdges;
  }

  lemma WorkingLimits(o: Book, p: nat, bids: bool, size: nat, w: Job)
    requires o.Working(w, size) && p < |o.book|
    ensures o.book[p].limits != [] ==> (OnSide(bids, p, o.Best(bids)) <==> o.LimitInWindow(bids, p))
    ensures o.bid < o.ask
  {
    hide Ok, Holding, Carried, StopIds, AonEdges, StopEdges;
  }

  lemma WorkingAons(o: Book, p: nat, bids: bool, size: nat, w: Job)
    requires o.Working(w, size) && p < |o.book|
    ensures Chain(o.book[p], AonKind(bids)) != [] ==> o.AonInWindow(bids, p)
  {
    hide Ok, Holding, Carried, StopIds;
  }

  /** An order resting in an AON chain is of that chain's side. */
  lemma AonMaker(o: Book, p: nat, k: Kind, i: nat, size: nat, w: Job)
    requires o.Working(w, size)
    requires p < |o.book| && (k == AonBuys || k == AonSells) && i < |Chain(o.book[p], k)|
    ensures var b := Chain(o.book[p], k)[i];
      b.id in o.ledger && o.ledger[b.id].isBuy == (k == AonBuys) && IsAon(b) && b.sz > 0
  {
    hide Unique, Found, Sided, Queued, Audited, Posted, Volume, Carried, Holding, Covered;
    Known(o.book, o.cache, o.ledger, p, k, i);
  }

  lemma FrontMaker(o: Book, bids: bool, p: nat, size: nat, w: Job)
    requires o.Working(w, size)
    requires p < |o.book| && o.book[p].limits != [] && OnSide(bids, p, o.Best(bids))
    ensures var b := o.book[p].limits[0]; b.id in o.ledger && o.ledger[b.id].isBuy == bids && b.sz > 0
    ensures bids <==> p < o.ask
  {
    hide Ok, Volume, Carried, Holding, Gap;
    LimitMaker(o.D(), bids, p);
  }

  lemma StopFloor(o: Book, size: nat, w: Job)
    requires o.Working(w, size)
    ensures o.lowBuyStop > 0 && o.highSellStop < |o.book| && o.last < |o.book|
    ensures forall q :: 0 <= q < |o.book| ==>
      (HasStop(o.book[q], true) ==> o.lowBuyStop <= q) && (HasStop(o.book[q], false) ==> q <= o.highSellStop)
  {
    hide Ok, Holding, Carried, StopIds, AonEdges;
  }

  lemma Flagged(o: Book, size: nat, w: Job)
    requires o.Working(w, size)
    ensures o.needCheck <==> w.check || w.sales < |o.timesales|
    ensures o.needCheck ==> o.last > 0
    ensures StopIds(o.cache) == w.stops
    ensures o.Working(o.Now(w), size)
  {
    hide Ok, Covered, Holding, Carried;
  }

  lemma LookStart(o: Book, bids: bool, p: nat, sz: nat)
    requires o.Sound() && 0 < p < |o.book|
    ensures if bids then o.Begin(bids) < |o.book| else 0 < o.Begin(bids) <= |o.book|
    ensures Left(o.book, bids, o.Best(bids), Outermost(bids, |o.book|), p, sz) ==
      Left(o.book, bids, o.Best(bids), o.Begin(bids), p, sz)
    ensures Left(o.book, bids, o.Best(bids), Outermost(bids, |o.book|), p, sz)
         == Match(o.book, bids, o.Best(bids), Outermost(bids, |o.book|), p, sz).left
  {
    hide Ok, Match, Left, StopEdges;
    QuietBefore(o, bids);
    MatchLeft(o.book, o.book, bids, o.Best(bids), Outermost(bids, |o.book|), p, sz);
    MatchLeft(o.book, o.book, bids, o.Best(bids), o.Begin(bids), p, sz);
    MatchJump(o.book, bids, o.Best(bids), Outermost(bids, |o.book|), o.Begin(bids), p, sz);
  }

  lemma QuietBefore(o: Book, bids: bool)
    requires o.Sound()
    ensures forall r :: 0 < r < |o.book| && Beyond(bids, r, o.Begin(bids)) && r != o.Begin(bids) ==>
      Quiet(o.book[r], bids, OnSide(bids, r, o.Best(bids)))
  {
    hide Ok, StopEdges;
  }

  /** One level of looking ahead: what the two chains leave. */
  lemma LookLevel(o: Book, bids: bool, b: nat, p: nat, size: nat)
    requires o.Sound() && OnBook(|o.book|, bids, b, p) && InsideOf(bids, b, p) && size > 0
    ensures forall x :: x in Chain(o.book[b], AonKind(bids)) || x in o.book[b].limits ==> x.sz > 0
    ensures var a := HitLimits(Chain(o.book[b], AonKind(bids)), b, size).left;
      var left := if o.LimitInWindow(bids, b) && o.book[b].limits != [] then HitLimits(o.book[b].limits, b, a).left
        else a;
      && (Chain(o.book[b], AonKind(bids)) == [] ==> a == size)
      && left <= a <= size
      && Left(o.book, bids, o.Best(bids), b, p, size) == Left(o.book, bids, o.Best(bids), Next(bids, b), p, left)
      && Left(o.book, bids, o.Best(bids), Next(bids, b), p, 0) == 0
      && Left(o.book, bids, o.Best(bids), Next(bids, b), p, left) <= left
      && (a == 0 ==> left == 0)
  {
    hide Match;
    ChainFacts(o.D(), o.E(), bids, b);
    hide Ok;
    HitAonsAsLimits(Chain(o.book[b], AonKind(bids)), b, size);
    LimitWindow(o, bids, b);
  }

  lemma LimitWindow(o: Book, bids: bool, b: nat)
    requires o.Sound() && b < |o.book|
    ensures o.book[b].limits != [] ==> (OnSide(bids, b, o.Best(bids)) <==> o.LimitInWindow(bids, b))
  {
    hide Ok, AonEdges, StopEdges;
  }

  /** id, not cached, is not at the front of a chain. */
  lemma FrontId(o: Book, p: nat, id: nat)
    requires o.Sound() && p < |o.book| && o.book[p].limits != [] && id !in o.cache
    ensures o.book[p].limits[0].id != id
  {
    hide Covered, Unique, Found, Tallied, Sided, Queued, Audited, Handled, Posted;
    assert o.book[p].limits[0] in Chain(o.book[p], Limits);
  }

  /** After a match that leaves size the limit chains of the side hit are out of reach. */
  lemma Uncrossed(o: Book, book0: seq<Level>, bids: bool, inside: nat, plev: nat, size0: nat, size: nat)
    requires o.Sound() && o.Tight(true) && o.Tight(false) && Beyond(bids, inside, o.Best(bids))
    requires 0 < plev < |book0|
    requires var m := Match(book0, bids, inside, Outermost(bids, |book0|), plev, size0);
      !m.fault && m.left == size && o.book == m.book
    ensures size > 0 ==> !OnSide(bids, plev, o.Best(bids))
  {
    hide Ok, AonEdges, StopEdges, Match;
    if size > 0 && OnSide(bids, plev, o.Best(bids)) {
      MatchMaximal(book0, bids, inside, Outermost(bids, |book0|), plev, size0, o.Best(bids));
    }
  }

  lemma OverlapWindow(o: Book, bids: bool)
    requires o.Sound()
    ensures forall q :: 0 < q < |o.book| && (if bids then q > o.highBuyAon else q < o.lowSellAon) ==>
      Chain(o.book[q], AonKind(bids)) == []
    ensures o.highBuyAon < |o.book| && o.lowSellAon > 0
  {
    hide Ok, StopEdges;
  }

  /** A resting AON order can be taken in hand. */
  lemma LiftAon(o: Book, a: Overlap, isBuy: bool, w: Job)
    requires o.Valid() && o.Kept(w)
    requires 0 < a.level < |o.book| && a.bundle in Chain(o.book[a.level], AonKind(isBuy))
    ensures var id := a.bundle.id;
      && id in o.cache && o.cache[id] == Place(AonKind(isBuy), a.level) && id !in o.hand && a.bundle.sz > 0
      && Located(o.book, o.cache, id) && BundleOf(o.book, o.cache, id) == a.bundle
      && Holding(o.queue, o.ledger, o.hand + {id}, id, a.bundle.sz, isBuy) && Carried(o.ledger, o.ledger, o.hand)
      && InWork(o.queue, o.hand + {id}, w.work + {id})
      && Named(o.book, o.cache) && Unique(o.book) && |o.book| > 1
  {
    hide Covered, Sided, Found, Audited, Posted, StopsPriced, QueuePriced, Tallied;
    TheBundle(o.book, o.cache, a.level, AonKind(isBuy), a.bundle);
    AonTallies(o.D(), a.level, AonKind(isBuy), a.bundle);
  }

  lemma LiftEngaged(o: Book, w: Job, size: nat)
    requires Holding(o.queue, o.ledger, o.hand, w.id, size, w.isBuy) && Carried(w.ledger, o.ledger, w.keep)
    requires w.keep <= o.hand && w.id !in w.keep && InWork(o.queue, o.hand, w.work)
    ensures o.Engaged(o.Now(w), size) && (o.Valid() ==> o.Steady(w, size))
  {
    hide Holding, Carried, InWork, StopIds, Book.Valid;
  }

  lemma StillKept(o: Book, w: Job, size: nat)
    requires o.Steady(w, size)
    ensures o.Kept(w) && Holding(o.queue, o.ledger, o.hand, w.id, size, w.isBuy)
    ensures Carried(w.ledger, o.ledger, w.keep) && w.keep <= o.hand && w.id !in w.keep
      && InWork(o.queue, o.hand, w.work)
  {
    hide Holding, Carried, InWork, Ok, StopIds;
  }

  /** While an order w1 lifted from the book was at work, the order w at work before it was not touched. */
  lemma StillHeld(queue0: seq<Ticket>, ledger0: map<nat, Account>, hand0: set<nat>, o: Book, w: Job, w1: Job, size: nat,
          left: nat)
    requires Holding(queue0, ledger0, hand0, w.id, size, w.isBuy) && Carried(w.ledger, ledger0, w.keep)
      && w.keep <= hand0
    requires w.id in w.work && w.id !in w.keep && InWork(queue0, hand0, w.work)
    requires o.Engaged(o.Now(w1), left) && w1.ledger == ledger0 && w1.keep == hand0 && w1.work == w.work + {w1.id}
      && w1.id !in hand0
    ensures Holding(o.queue, o.ledger, o.hand, w.id, size, w.isBuy) && Carried(w.ledger, o.ledger, w.keep)
    ensures w.keep <= o.hand && w1.id !in w.keep && w1.id !in w.work && w1.id != w.id
      && InWork(o.queue, o.hand, w.work + {w1.id})
  {
    forall t | t in o.queue ensures t.id != w.id {
      assert t.id in QueueIds(o.queue);
    }
  }

  lemma MatchedIs(o: Book, bids: bool, plev: nat, id: nat, size: nat)
    requires o.Sound() && 0 < plev < |o.book|
    ensures var m := Match(o.book, bids, o.Best(bids), Outermost(bids, |o.book|), plev, size);
      var r := Matched(o.F(), bids, plev, id, size, o.base);
      r.left == m.left && r.fault == m.fault
  {
    hide Match, Outward, LastLevel;
  }

  lemma LookedIs(o: Book, bids: bool, p: nat, size: nat)
    requires 0 < p < |o.book|
    ensures Looked(o.F(), bids, p, size) == Left(o.book, bids, o.Best(bids), Outermost(bids, |o.book|), p, size)
  {
  }

  lemma TakenOut(book: seq<Level>, book': seq<Level>, k: Kind, o: Overlap)
    requires ButFor(book, book', k, o.bundle.id) && o.level < |book|
    ensures o.bundle !in Chain(book'[o.level], k)
  {
  }

  /** An all-or-none order ends with a sale to the order at work, if it lacked anything. */
  lemma ClosingLast(f: Floor, p: nat, taker: nat, maker: nat, left: nat, base: nat)
    ensures var tape := Closed(f, p, taker, maker, left, base).tape;
      left > 0 ==> tape != [] && tape[|tape| - 1] == Sale(base + p - 1, left, taker, maker)
  {
  }

  /** The inside levels of a side moved outwards to the next level with limit orders. */
  lemma InsideMovedTo(o: Book, bid: nat, ask: nat)
    requires o.Sound() && o.Tight(true) && o.Tight(false) && o.bid <= bid < ask <= o.ask && bid < |o.book|
    ensures Outward(o.book, true, bid) == o.bid && Outward(o.book, false, ask) == o.ask
  {
    hide Ok, AonEdges, StopEdges, Outward, FarLimits;
    OutwardIs(o.book, true, bid, o.bid);
    OutwardIs(o.book, false, ask, o.ask);
  }

  lemma InsideIs(o: Book, bid: nat, ask: nat)
    requires o.Valid() && o.bid <= bid < ask <= o.ask && bid < |o.book|
    ensures Outward(o.book, true, bid) == o.bid && Outward(o.book, false, ask) == o.ask
  {
    hide Book.Sound, Outward, NearAons;
    InsideMovedTo(o, bid, ask);
  }

  lemma ValidGap(o: Book)
    requires o.Valid()
    ensures o.bid < o.ask <= |o.book| && o.bid < |o.book|
  {
    hide Book.Sound, NearAons, Taped;
    SoundGap(o);
  }

  lemma SoundGap(o: Book)
    requires o.Sound()
    ensures o.bid < o.ask <= |o.book| && o.bid < |o.book| && Taped(o.timesales, o.last, o.base)
  {
    hide Ok, AonEdges, StopEdges, FarLimits, Volume, Taped;
  }

  /** What the matched book and its tape leave of the floor. */
  lemma MatchedNow(o: Book, f: Floor, bids: bool, plev: nat, id: nat, size0: nat, size: nat, w: Job)
    requires o.Working(w, size) && o.Tight(true) && o.Tight(false) && 0 < plev < |f.book| == |o.book|
    requires f.bid < f.ask <= |f.book| && f.bid < |f.book| && Taped(f.tape, f.last, o.base) && f.check == w.check
      && w.sales == |f.tape|
    requires f == o.F().(book := f.book, bid := f.bid, ask := f.ask, tape := f.tape, last := f.last, check := f.check)
    requires var m := Match(f.book, bids, InsideLevel(f, bids), Outermost(bids, |f.book|), plev, size0);
      && o.book == m.book && size == m.left && o.timesales == f.tape + SalesOf(m.fills, id, o.base)
    requires Beyond(bids, InsideLevel(f, bids), o.Best(bids)) && o.Best(!bids) == InsideLevel(f, !bids)
    ensures o.F() == Matched(f, bids, plev, id, size0, o.base).f
  {
    hide Match, SalesOf, Book.Sound, Taped, Outward, LastLevel;
    var m := Match(f.book, bids, InsideLevel(f, bids), Outermost(bids, |f.book|), plev, size0);
    SoundGap(o);
    LastTaped(f.tape, f.last, m.fills, id, o.base, o.last);
    SalesCount(m.fills, id, o.base);
    Flagged(o, size, w);
    InsideMovedTo(o, if bids then f.bid else o.bid, if bids then o.ask else f.ask);
  }

  lemma KeptAfter(queue0: seq<Ticket>, ledger0: map<nat, Account>, hand0: set<nat>, o: Book, w: Job, w1: Job, left: nat)
    requires Carried(w.ledger, ledger0, w.keep) && w.keep <= hand0 && InWork(queue0, hand0, w.work)
    requires o.Engaged(o.Now(w1), left) && w1.ledger == ledger0 && w1.keep == hand0 && w1.work == w.work + {w1.id}
      && w1.id !in hand0
    ensures Carried(w.ledger, o.ledger, w.keep)
    ensures w.keep <= o.hand && w1.id !in w.keep && w1.id !in w.work && InWork(o.queue, o.hand, w.work + {w1.id})
  {
  }

  lemma OverlapsSorted(o: Book, bids: bool, p: nat)
    requires o.Valid() && 0 < p < |o.book|
    ensures Standing(o.book, bids, Overlapped(o.book, bids, p)) && Separate(Overlapped(o.book, bids, p))
    ensures Leveled(|o.book|, Overlapped(o.book, bids, p))
  {
    hide Named, Unique, Found, Tallied, Sided, Queued, Audited, Posted, Covered;
    OverlapsStand(o.book, bids, p);
    OverlappedOnce(o.book, o.cache, bids, p);
  }

  lemma LastStanding(o: Book, bids: bool, os: seq<Overlap>)
    requires o.Valid() && Standing(o.book, bids, os) && Separate(os) && os != []
    ensures var a := os[|os| - 1];
      0 < a.level < |o.book| && a.bundle in Chain(o.book[a.level], AonKind(bids)) && a.bundle.sz > 0
    ensures Standing(o.book, bids, os[..|os| - 1]) && Separate(os[..|os| - 1])
  {
    hide Ok, Covered;
    var a := os[|os| - 1];
    AonTallies(o.D(), a.level, AonKind(bids), a.bundle);
  }

  /** The cached edges tell whether there is anything to cross. */
  lemma TradableIff(o: Book, bids: bool, p: nat)
    requires o.Valid() && 0 < p < |o.book|
    ensures o.CoreTradable(bids, p) <==> Tradable(o.F(), bids, p)
    ensures !o.CoreTradable(bids, p) ==> !OnSide(bids, p, o.Best(bids))
  {
    hide Ok, StopEdges, StopsPriced, QueuePriced, Volume, Taped;
    if o.CoreTradable(bids, p) && !OnSide(bids, p, o.Best(bids)) {
      var q := if bids then o.highBuyAon else o.lowSellAon;
      assert Chain(o.book[q], AonKind(bids)) != [];
    }
  }

  /** The order at work may rest. */
  lemma ReadyToRest(o: Book, w: Job, isBuy: bool, sz: nat, rmndr: nat, aon: bool, k: Kind)
    requires o.Steady(w, rmndr) && o.Due(w, w.id, isBuy, sz, aon) && rmndr > 0 && (aon ==> rmndr == sz)
    requires k == Limits || (k == AonKind(isBuy) && aon)
    ensures Ready(o.D(), k, Resting(w.id, rmndr, aon)) && w.id in o.ledger && o.ledger[w.id].isBuy == isBuy
  {
    hide Ok, Covered, InWork, StopIds;
  }

  lemma NotCached(o: Book, w: Job, size: nat)
    requires o.Steady(w, size)
    ensures w.id !in o.cache
  {
    hide Covered, Carried, StopIds, Named, Unique, Found, Tallied, Sided, Queued, Audited, Posted;
  }

  lemma AreStops(o: Book, w: Job, size: nat, p: nat)
    requires o.Working(w, size) && p < |o.book|
    ensures forall k :: 0 <= k < |o.book[p].stops| ==> o.book[p].stops[k].Stop?
  {
    hide Ok, Covered, AtWork;
    forall k | 0 <= k < |o.book[p].stops| {
      IsStop(o.D(), p, k);
    }
  }

  lemma OpposedIff(o: Book, w: Job, size: nat, isBuy: bool, p: nat)
    requires o.Steady(w, size) && 0 < p < |o.book|
    ensures o.Opposed(isBuy, p) <==> OnSide(!isBuy, p, o.Best(!isBuy))
    ensures Gap(o.book, o.bid, o.ask)
  {
    hide Named, Unique, Found, Queued, Audited, Handled, Posted, AonEdges, StopEdges, FarLimits, AtWork, StopsPriced,
      QueuePriced, NearAons, Volume, Taped;
    var q := o.Best(!isBuy);
    if OnSide(!isBuy, p, q) {
      var b := o.book[q].limits[0];
      AonTallies(o.D(), q, Limits, b);
      assert b in o.book[q].limits;
    }
  }

  lemma RestsFor(o: Book, w: Job, isBuy: bool, sz: nat, rmndr: nat, aon: bool)
    requires o.Steady(w, rmndr) && o.Due(w, w.id, isBuy, sz, aon)
    ensures o.Valid() && w.id in w.work && o.bid < o.ask <= |o.book|
  {
    hide AtWork, Ok;
    SoundGap(o);
  }

  lemma InHand(o: Book, w: Job, size: nat)
    requires o.Steady(w, size)
    ensures o.Valid() && w.id in o.hand && forall t :: t in o.queue ==> t.id != w.id
  {
    hide Book.Valid, Carried, InWork;
  }

  lemma OffKept(o: Book, w: Job)
    requires Carried(w.ledger, o.ledger, w.keep) && Off(w).keep <= o.hand && InWork(o.queue, o.hand, Off(w).work)
    ensures o.Kept(Off(w))
  {
    hide Carried, InWork;
  }

  lemma OffWork(o: Book, w: Job, size: nat)
    requires o.Steady(w, size) && w.id in w.work
    ensures Carried(w.ledger, o.ledger, w.keep) && Off(w).keep <= o.hand - {w.id}
      && InWork(o.queue, o.hand - {w.id}, Off(w).work)
  {
    hide Ok, Covered, Carried, StopIds;
  }

  lemma Roomy(o: Book)
    requires o.Sound()
    ensures |o.book| > 1
  {
    hide Covered, Named, Unique, Found, Tallied, Sided, Queued, Audited, Handled, Posted;
  }

  /** The order at work may be given up unless it is all-or-none and partly filled. */
  lemma MayDrop(o: Book, w: Job, isBuy: bool, sz: nat, aon: bool, size: nat)
    requires o.Steady(w, size) && o.Due(w, w.id, isBuy, sz, aon) && (aon ==> size == sz)
    ensures w.id in o.ledger && Whole(o.ledger[w.id]) && Open(o.ledger[w.id]) == size && w.id !in w.keep
  {
    hide Ok, Covered, InWork, StopIds;
  }

  lemma StopReady(o: Book, w: Job, isBuy: bool, limit: nat, sz: nat)
    requires o.Steady(w, sz) && o.Due(w, w.id, isBuy, sz, false) && sz > 0
    ensures Ready(o.D(), Stops, Stop(w.id, sz, isBuy, limit))
  {
    hide Ok, Covered, InWork, StopIds;
  }

  lemma WasResting(o: Book, id: nat)
    requires o.Valid() && id in o.cache
    ensures id in o.ledger && Open(o.ledger[id]) >= 0 && Whole(o.ledger[id]) && id !in o.hand && forall t ::
      t in o.queue ==> t.id != id
  {
    hide Covered, Named, Unique, Found, Tallied, Sided, Queued, Audited, Posted, StopsPriced, QueuePriced, Volume;
    Cached(o.D(), id);
    Desk.Sound(o.D(), id);
    Apart(o.D(), id);
  }

  lemma CarryOn(l: map<nat, Account>, l': map<nat, Account>, o: Book, w: Job)
    requires Carried(l, l', {}) && w.ledger == l' && o.Kept(Off(w)) && w.work == {w.id}
    ensures Carried(l, o.ledger, {}) && InWork(o.queue, o.hand, {})
  {
    assert Off(w).work == {};
  }

  /** An order with nothing open does not rest. */
  lemma NotResting(o: Book, id: nat)
    requires o.Valid() && id in o.ledger && Open(o.ledger[id]) <= 0
    ensures id !in o.cache
  {
    hide Covered, Named, Unique, Sided, Queued, Audited, Posted, StopsPriced, QueuePriced, Volume;
    if id in o.cache {
      var pl := o.cache[id];
      var b :| b in Chain(o.book[pl.level], pl.kind) && b.id == id;
      AonTallies(o.D(), pl.level, pl.kind, b);
    }
  }

  lemma Based(o: Book)
    requires o.Idle()
    ensures o.base > 0 && |o.book| > 1
  {
    hide Named, Unique, Found, Tallied, Sided, Queued, Audited, Handled, Posted, Covered, Volume;
  }

  lemma RestsInPlace(o: Book, id: nat)
    requires o.Valid() && id in o.cache
    ensures Located(o.book, o.cache, id)
  {
    hide Ok, Covered;
    InPlace(o.D(), id);
  }

  /** A cached limit order is on one of the two sides. */
  lemma LimitSomewhere(o: Book, id: nat)
    requires o.Valid() && id in o.cache && o.cache[id].kind == Limits
    ensures var p := o.cache[id].level; 0 < p < |o.book| && (p <= o.bid || p >= o.ask) && o.bid < o.ask
  {
    hide Ok, AonEdges, StopEdges, FarLimits, Taped, Volume;
    InPlace(o.D(), id);
  }

  class Book {
    var base: nat
    var book: seq<Level>
    var last: nat
    var bid: nat
    var ask: nat
    var lowBuyLimit: nat
    var highSellLimit: nat
    var lowBuyStop: nat
    var highBuyStop: nat
    var lowSellStop: nat
    var highSellStop: nat
    var lowBuyAon: nat
    var highBuyAon: nat
    var lowSellAon: nat
    var highSellAon: nat
    var cache: map<nat, Place>
    var totalVolume: nat
    var lastId: nat
    var lastSize: nat
    var timesales: seq<Sale>
    var queue: seq<Ticket>
    var needCheck: bool
    ghost var ledger: map<nat, Account>
    ghost var hand: set<nat>

    /** An empty book of incr prices from min on. */
    constructor (min: nat, incr: nat)
      requires min > 0 && incr >= 3
      ensures Idle() && base == min && |book| == incr + 1 && ledger == map[] && timesales == []
      ensures forall p :: 0 <= p < |book| ==> book[p] == VACANT
      ensures F() == Opening(incr + 1)
    {
      base := min;
      book := seq(incr + 1, _ => VACANT);
      last := 0;
      bid, ask := 0, incr + 1;
      lowBuyLimit, highSellLimit := incr + 1, 0;
      lowBuyStop, highBuyStop, lowSellStop, highSellStop := incr + 1, 0, incr + 1, 0;
      lowBuyAon, highBuyAon, lowSellAon, highSellAon := incr + 1, 0, incr + 1, 0;
      cache := map[];
      totalVolume, lastId, lastSize := 0, 0, 0;
      timesales := [];
      queue := [];
      needCheck := false;
      ledger := map[];
      hand := {};
      new;
      assert book == Opening(incr + 1).book;
    }

    ghost function D(): Books
      reads `book, `bid, `ask, `cache, `queue, `lastId, `ledger, `hand, `timesales
    {
      Books(book, bid, ask, cache, queue, lastId, ledger, hand, timesales)
    }

    function E(): Edge
      reads `bid, `ask, `lowBuyLimit, `highSellLimit, `lowBuyAon, `highBuyAon, `lowSellAon, `highSellAon
      reads `lowBuyStop, `highBuyStop, `lowSellStop, `highSellStop
    {
      Edge(bid, ask, lowBuyLimit, highSellLimit, lowBuyAon, highBuyAon, lowSellAon, highSellAon,
           lowBuyStop, highBuyStop, lowSellStop, highSellStop)
    }

    /** What later windows depend on. */
    ghost function F(): Floor
      reads `book, `bid, `ask, `lowBuyStop, `highBuyStop, `lowSellStop, `highSellStop
      reads `timesales, `last, `needCheck, `queue, `lastId
    {
      Floor(book, bid, ask, lowBuyStop, highBuyStop, lowSellStop, highSellStop, timesales, last, needCheck, queue,
        lastId)
    }

    ghost predicate Stats()
      reads `totalVolume, `timesales, `last, `lastSize, `needCheck, `base
    {
      && totalVolume == Volume(timesales) && base > 0
      && Taped(timesales, last, base) && (needCheck ==> last > 0)
      && (timesales != [] ==> timesales[|timesales| - 1].size == lastSize)
    }

    /** The books are in order, though an inside level may be empty. */
    ghost predicate Sound()
      reads `book, `bid, `ask, `cache, `queue, `lastId, `ledger, `hand, `timesales
      reads `lowBuyLimit, `highSellLimit, `lowBuyAon, `highBuyAon, `lowSellAon, `highSellAon
      reads `lowBuyStop, `highBuyStop, `lowSellStop, `highSellStop
      reads `totalVolume, `last, `lastSize, `needCheck, `base
    {
      Ok(D()) && Stats() && Covered(book, E()) && last < |book|
    }

    /** The order at work has size left, and what it is to keep is kept. */
    ghost predicate Engaged(w: Job, size: nat)
      reads `queue, `ledger, `hand, `cache, `timesales, `needCheck
    {
      AtWork(queue, ledger, hand, cache, timesales, needCheck, w, size)
    }

    ghost predicate Working(w: Job, size: nat)
      reads `book, `bid, `ask, `cache, `queue, `lastId, `ledger, `hand, `timesales
      reads `lowBuyLimit, `highSellLimit, `lowBuyAon, `highBuyAon, `lowSellAon, `highSellAon
      reads `lowBuyStop, `highBuyStop, `lowSellStop, `highSellStop
      reads `totalVolume, `last, `lastSize, `needCheck, `base
    {
      Sound() && Engaged(w, size)
    }

    /** The job as it stands: stops and trades so far are accounted for. */
    ghost function Now(w: Job): Job
      reads `cache, `needCheck, `timesales
    {
      w.(stops := StopIds(cache), check := needCheck, sales := |timesales|)
    }

    function Itop(p: nat): int
      reads `base
    {
      base + p - 1
    }

    /** Two orders have been matched; the ledger follows suit. */
    method TradeHasOccured(plev: nat, size: nat, taker: nat, maker: nat)
      requires Stats() && 0 < plev < |book| && taker in ledger && maker in ledger
      modifies `timesales, `last, `totalVolume, `lastSize, `needCheck, `ledger
      ensures Stats() && last == plev && lastSize == size && needCheck
      ensures timesales == old(timesales) + [Sale(Itop(plev), size, taker, maker)]
      ensures ledger == Credit(Credit(old(ledger), taker, size), maker, size)
    {
      VolumePush(timesales, Sale(Itop(plev), size, taker, maker));
      timesales := timesales + [Sale(Itop(plev), size, taker, maker)];
      last := plev;
      totalVolume := totalVolume + size;
      lastSize := size;
      needCheck := true;
      ledger := Credit(Credit(ledger, taker, size), maker, size);
    }

    /** The effects of a trade with bundle pos of a chain, which is erased when used up. */
    method Post(plev: nat, k: Kind, pos: nat, id: nat, size: nat)
      requires Stats() && 0 < plev < |book| && pos < |Chain(book[plev], k)| && size <= Chain(book[plev], k)[pos].sz
      requires Chain(book[plev], k)[pos].id in ledger && id in ledger
      modifies `book, `cache, `timesales, `last, `totalVolume, `lastSize, `needCheck, `ledger
      ensures Stats() && needCheck && last == plev && D() == Desk.Strike(old(D()), plev, k, pos, id, size, Itop(plev))
      ensures book == SetChain(old(book), plev, k, Struck(Chain(old(book)[plev], k), pos, size))
      ensures timesales == old(timesales) + [Sale(Itop(plev), size, id, old(Chain(book[plev], k)[pos].id))]
    {
      hide SetChain, WithChain, Struck, Volume;
      var b := Chain(book[plev], k)[pos];
      TradeHasOccured(plev, size, id, b.id);
      if size == b.sz {
        cache := cache - {b.id};
      }
      book := SetChain(book, plev, k, Struck(Chain(book[plev], k), pos, size));
    }

    /** id, with open left, trades size with bundle pos of a chain. */
    method Strike(bids: bool, plev: nat, k: Kind, pos: nat, id: nat, open: nat, size: nat, ghost w: Job)
      requires 0 < plev < |book| && k != Stops && pos < |Chain(book[plev], k)|
      requires Chain(book[plev], k)[pos].id in ledger && ledger[Chain(book[plev], k)[pos].id].isBuy == bids
      requires Working(w, open) && w.id == id && w.isBuy == !bids
      requires size <= Chain(book[plev], k)[pos].sz && size <= open
      requires IsAon(Chain(book[plev], k)[pos]) ==> size == Chain(book[plev], k)[pos].sz
      modifies `book, `cache, `timesales, `last, `totalVolume, `lastSize, `needCheck, `ledger
      ensures Working(w, open - size)
      ensures book == SetChain(old(book), plev, k, Struck(Chain(old(book)[plev], k), pos, size))
      ensures timesales == old(timesales) + [Sale(Itop(plev), size, id, old(Chain(book[plev], k)[pos].id))]
    {
      hide Ok, AtWork, SetChain, WithChain, Struck, Covered, Stats, Desk.Strike, Chain, Itop;
      CoveredCut(book, E(), plev, k, Struck(Chain(book[plev], k), pos, size));
      StrikeAtWork(D(), needCheck, w, plev, k, pos, open, size, Itop(plev));
      Post(plev, k, pos, id, size);
    }

    /** All trades against the AON chain of a level. */
    method HitAonChain(bids: bool, plev: nat, id: nat, size0: nat, ghost w: Job)
      returns (size: nat, all: bool)
      requires 0 < plev < |book| && Working(w, size0) && w.id == id && w.isBuy == !bids
      modifies `book, `cache, `timesales, `last, `totalVolume, `lastSize, `needCheck, `ledger
      ensures Working(w, size)
      ensures var h := HitAons(Chain(old(book)[plev], AonKind(bids)), plev, size0);
        && book == SetChain(old(book), plev, AonKind(bids), h.rest) && size == h.left && (all <==> h.rest == [])
        && timesales == old(timesales) + SalesOf(h.fills, id, base)
    {
      hide Working, HitSoFar, HitAons, Struck, SetChain, WithChain, SalesOf;
      var k := AonKind(bids);
      ghost var h := HitAons(Chain(book[plev], k), plev, size0);
      ghost var fills: seq<Fill> := [];
      var pos := 0;
      size := size0;
      HitAonsStart(Chain(book[plev], k), plev, size0);
      SetSame(book, plev, k);
      NoSales(id, base);
      while pos < |Chain(book[plev], k)| && size > 0
        invariant |book| == |old(book)| && pos <= |Chain(book[plev], k)|
        invariant Working(w, size)
        invariant book == SetChain(old(book), plev, k, Chain(book[plev], k))
        invariant HitSoFar(h, Chain(book[plev], k)[..pos], [], fills, HitAons(Chain(book[plev], k)[pos..], plev, size))
        invariant timesales == old(timesales) + SalesOf(fills, id, base)
        decreases |Chain(book[plev], k)| - pos
      {
        ghost var c := Chain(book[plev], k);
        var b := Chain(book[plev], k)[pos];
        if size >= b.sz {
          AonMaker(this, plev, k, pos, size, w);
          HitAonsFill(h, c, pos, fills, plev, size);
          SetTwice(old(book), plev, k, c, Struck(c, pos, b.sz));
          SalesPush(fills, Fill(plev, b.id, b.sz), id, base);
          Strike(bids, plev, k, pos, id, size, b.sz, w);
          size := size - b.sz;
          fills := fills + [Fill(plev, b.id, b.sz)];
        } else {
          HitAonsSkip(h, c, pos, fills, plev, size);
          pos := pos + 1;
        }
      }
      HitAonsEnd(h, Chain(book[plev], k), pos, fills, plev, size);
      all := Chain(book[plev], k) == [];
    }

    /** The head of a limit chain goes to the back of the AON chain of its level.
        The source always takes the AON buys, for sells too; the cache entry of
        a sell then names a chain the order is not in. */
    method CopyToAonChain(plev: nat) returns (ok: bool)
      requires 0 < plev < |book| && book[plev].limits != [] && IsAon(book[plev].limits[0])
      requires Sound() && AonTight()
      modifies `book, `cache, `lowBuyAon, `highBuyAon, `lowSellAon, `highSellAon
      ensures ok <==> plev < ask
      ensures book == LimitsHit(old(book), plev, old(book[plev].limits)[1..], [old(book[plev].limits)[0]])
      ensures var l := old(book[plev]);
        book == old(book)[plev := l.(limits := l.limits[1..], aonBuys := l.aonBuys + [l.limits[0]])]
      ensures ok ==> Sound() && StopIds(cache) == old(StopIds(cache)) && AonTight()
      ensures cache == old(cache)[old(book[plev].limits)[0].id := Place(if ok then AonBuys else AonSells, plev)]
    {
      hide Ok, StopIds, Covered, Stats;
      ok := plev < ask;
      ghost var l := book[plev];
      if ok {
        CoveredGap(book, E());
        LimitMaker(D(), true, plev);
        DemoteOk(D(), plev, 0);
        CoveredDemote(book, E(), plev);
      }
      assert Without(l.limits, 0) == l.limits[1..];
      FileAon(ok, plev);
    }

    method FileAon(buys: bool, plev: nat)
      requires plev < |book| && book[plev].limits != []
      modifies `book, `cache, `lowBuyAon, `highBuyAon, `lowSellAon, `highSellAon
      ensures D() == old(D()).(
        book := LimitsHit(old(book), plev, old(book)[plev].limits[1..], [old(book)[plev].limits[0]]),
        cache := old(cache)[old(book)[plev].limits[0].id := Place(if buys then AonBuys else AonSells, plev)])
      ensures E() == InsertedAon(old(E()), buys, plev)
    {
      hide InsertedAon;
      var l := book[plev];
      var b := l.limits[0];
      cache := cache[b.id := Place(if buys then AonBuys else AonSells, plev)];
      AonInserted(buys, plev);
      book := book[plev := l.(limits := l.limits[1..], aonBuys := l.aonBuys + [b])];
    }

    /** The same, on behalf of an order at work. */
    method StepAside(plev: nat, ghost size: nat, ghost w: Job) returns (ok: bool)
      requires 0 < plev < |book| && book[plev].limits != [] && IsAon(book[plev].limits[0])
      requires Working(w, size) && AonTight()
      modifies `book, `cache, `lowBuyAon, `highBuyAon, `lowSellAon, `highSellAon
      ensures ok <==> plev < ask
      ensures book == LimitsHit(old(book), plev, old(book[plev].limits)[1..], [old(book[plev].limits)[0]])
      ensures ok ==> Working(w, size) && AonTight()
    {
      hide Sound, Holding, StopIds, Carried;
      ok := CopyToAonChain(plev);
    }

    method AonInserted(buys: bool, p: nat)
      modifies `lowBuyAon, `highBuyAon, `lowSellAon, `highSellAon
      ensures E() == InsertedAon(old(E()), buys, p)
    {
      if buys {
        if p > highBuyAon {
          highBuyAon := p;
        }
        if p < lowBuyAon {
          lowBuyAon := p;
        }
      } else {
        if p < lowSellAon {
          lowSellAon := p;
        }
        if p > highSellAon {
          highSellAon := p;
        }
      }
    }

    /** One order of a limit chain: it trades, or steps aside. Not ok: a sell stepped aside. */
    method HitFront(bids: bool, plev: nat, id: nat, size0: nat, ghost w: Job)
      returns (size: nat, ok: bool)
      requires 0 < plev < |book| && book[plev].limits != [] && size0 > 0 && OnSide(bids, plev, Best(bids))
      requires Working(w, size0) && w.id == id && w.isBuy == !bids && AonTight()
      modifies `book, `cache, `timesales, `last, `totalVolume, `lastSize, `needCheck, `ledger
      modifies `lowBuyAon, `highBuyAon, `lowSellAon, `highSellAon
      ensures ok <==> bids || HitHead(old(book[plev].limits), plev, size0).moved == []
      ensures ok ==> Working(w, size) && AonTight()
      ensures ok ==> var s := HitHead(old(book[plev].limits), plev, size0);
        && book == LimitsHit(old(book), plev, s.rest, s.moved) && size == s.left
        && timesales == old(timesales) + SalesOf(s.fills, id, base)
    {
      hide Working, Struck, SalesOf, SetChain, WithChain, LimitsHit, NearAons;
      ghost var c := book[plev].limits;
      var b := book[plev].limits[0];
      size, ok := size0, true;
      FrontMaker(this, bids, plev, size, w);
      NoSales(id, base);
      if IsAon(b) && size < b.sz {
        ok := StepAside(plev, size, w);
        assert timesales + [] == timesales;
      } else {
        var amount := if size < b.sz then size else b.sz;
        SalesPush([], Fill(plev, b.id, amount), id, base);
        assert [] + [Fill(plev, b.id, amount)] == [Fill(plev, b.id, amount)];
        LimitsUnhit(book, plev);
        LimitsHitAgain(book, plev, c, [], Struck(c, 0, amount));
        NearStruck(book, highBuyAon, lowSellAon, plev, Struck(c, 0, amount));
        Strike(bids, plev, Limits, 0, id, size, amount, w);
        size := size - amount;
      }
    }

    /** All trades against the limit chain of a level. Not ok: a sell stepped aside. */
    method HitChain(bids: bool, plev: nat, id: nat, size0: nat, ghost w: Job)
      returns (size: nat, all: bool, ok: bool)
      requires 0 < plev < |book| && book[plev].limits != [] && size0 > 0 && OnSide(bids, plev, Best(bids))
      requires Working(w, size0) && w.id == id && w.isBuy == !bids && AonTight()
      modifies `book, `cache, `timesales, `last, `totalVolume, `lastSize, `needCheck, `ledger
      modifies `lowBuyAon, `highBuyAon, `lowSellAon, `highSellAon
      ensures ok <==> bids || HitLimits(old(book[plev].limits), plev, size0).moved == []
      ensures ok ==> Working(w, size) && AonTight()
      ensures ok ==> var h := HitLimits(old(book[plev].limits), plev, size0);
        && book == LimitsHit(old(book), plev, h.rest, h.moved)
        && size == h.left && (all <==> h.rest == [])
        && timesales == old(timesales) + SalesOf(h.fills, id, base)
    {
      hide Working, HitSoFar, HitLimits, HitHead, SalesOf, LimitsHit, NearAons;
      ghost var h := HitLimits(book[plev].limits, plev, size0);
      ghost var fills: seq<Fill> := [];
      ghost var moved: seq<Bundle> := [];
      size, all, ok := size0, false, true;
      HitLimitsStart(book[plev].limits, plev, size0);
      NoSales(id, base);
      LimitsUnhit(book, plev);
      while book[plev].limits != [] && size > 0
        invariant |book| == |old(book)| && ok && (bids || moved == [])
        invariant Working(w, size) && AonTight()
        invariant book == LimitsHit(old(book), plev, book[plev].limits, moved)
        invariant HitSoFar(h, [], moved, fills, HitLimits(book[plev].limits, plev, size))
        invariant timesales == old(timesales) + SalesOf(fills, id, base)
        decreases |book[plev].limits|, size
      {
        ghost var c := book[plev].limits;
        ghost var s := HitHead(c, plev, size);
        FrontMaker(this, bids, plev, size, w);
        HitLimitsStep(h, c, moved, fills, plev, size);
        HeadSmaller(c, plev, size);
        LimitsHitTwice(old(book), plev, c, moved, s.rest, s.moved);
        SalesConcat(fills, s.fills, id, base);
        size, ok := HitFront(bids, plev, id, size, w);
        if !ok {
          return;
        }
        moved := moved + s.moved;
        fills := fills + s.fills;
      }
      HitLimitsEnd(h, book[plev].limits, moved, fills, plev, size);
      all := book[plev].limits == [];
    }
  
    /** The inside of a side moves outwards to the next level with limit orders. */
    method FindNewBestInside(bids: bool)
      requires Sound()
      modifies `bid, `ask, `lowBuyLimit, `highSellLimit
      ensures Sound()
      ensures bids ==>
        && ask == old(ask) && highSellLimit == old(highSellLimit) && bid <= old(bid)
        && (bid > 0 ==> book[bid].limits != [])
      ensures !bids ==>
        && bid == old(bid) && lowBuyLimit == old(lowBuyLimit) && old(ask) <= ask
        && (ask < |book| ==> book[ask].limits != [])
    {
      hide Ok, Covered, Stats;
      if bids {
        FindNewBestBid();
      } else {
        FindNewBestAsk();
      }
    }

    method FindNewBestBid()
      requires Ok(D()) && Covered(book, E())
      modifies `bid, `lowBuyLimit
      ensures Ok(D()) && Covered(book, E())
      ensures bid <= old(bid) && (bid > 0 ==> book[bid].limits != [])
    {
      hide Ok, Covered;
      ghost var d := D();
      ghost var e := E();
      CoveredGap(book, e);
      var p: nat := bid;
      while p >= 1 && book[p].limits == []
        invariant p <= bid
        invariant forall q :: 0 <= q < |book| && book[q].limits != [] && q <= bid ==> q <= p
      {
        p := p - 1;
      }
      EdgeOk(d, p, ask);
      InsideMoved(book, e, p, ask);
      bid := p;
      if bid < 1 {
        lowBuyLimit := |book|;
      } else if bid < lowBuyLimit {
        lowBuyLimit := bid;
      }
    }

    method FindNewBestAsk()
      requires Ok(D()) && Covered(book, E())
      modifies `ask, `highSellLimit
      ensures Ok(D()) && Covered(book, E())
      ensures old(ask) <= ask && (ask < |book| ==> book[ask].limits != [])
    {
      hide Ok, Covered;
      ghost var d := D();
      ghost var e := E();
      CoveredGap(book, e);
      var p: nat := ask;
      while p < |book| && book[p].limits == []
        invariant ask <= p <= |book|
        invariant forall q :: 0 <= q < |book| && book[q].limits != [] && q >= ask ==> q >= p
      {
        p := p + 1;
      }
      EdgeOk(d, bid, p);
      InsideMoved(book, e, bid, p);
      ask := p;
      if ask >= |book| {
        highSellLimit := 0;
      } else if ask > highSellLimit {
        highSellLimit := ask;
      }
    }

    /** The AON chain of level p is used up. */
    method AonEmptied(buys: bool, p: nat)
      requires Sound() && p < |book| && Chain(book[p], AonKind(buys)) == [] && AonTightBut(buys, p)
      modifies `lowBuyAon, `highBuyAon, `lowSellAon, `highSellAon
      ensures Sound() && AonTight()
    {
      hide Ok, Covered, Stats;
      if buys {
        AonBuysEmptied(p);
      } else {
        AonSellsEmptied(p);
      }
    }

    /** The low edge is moved only as far as the highest sell AON, as the source has it. */
    method AonBuysEmptied(p: nat)
      requires Covered(book, E()) && p < |book| && book[p].aonBuys == [] && AonTightBut(true, p)
      modifies `lowBuyAon, `highBuyAon
      ensures Covered(book, E()) && AonTight()
    {
      hide Covered;
      ghost var e := E();
      CoveredAons(book, e);
      if p == highBuyAon {
        var r: nat := highBuyAon;
        while r >= lowBuyAon && book[r].aonBuys == []
          invariant r <= highBuyAon
          invariant forall q :: 0 <= q < |book| && Chain(book[q], AonBuys) != [] ==> q <= r
        {
          r := r - 1;
        }
        highBuyAon := r;
      } else if p == lowBuyAon {
        var r: nat := lowBuyAon;
        while r <= highSellAon && book[r].aonBuys == []
          invariant lowBuyAon <= r <= |book|
          invariant forall q :: 0 <= q < |book| && Chain(book[q], AonBuys) != [] ==> r <= q
        {
          r := r + 1;
        }
        lowBuyAon := r;
      }
      if highBuyAon < lowBuyAon {
        highBuyAon := 0;
        lowBuyAon := |book|;
      }
      AonsMoved(book, e, E());
    }

    method AonSellsEmptied(p: nat)
      requires Covered(book, E()) && p < |book| && book[p].aonSells == [] && AonTightBut(false, p)
      modifies `lowSellAon, `highSellAon
      ensures Covered(book, E()) && AonTight()
    {
      hide Covered;
      ghost var e := E();
      CoveredAons(book, e);
      if p == lowSellAon {
        var r: nat := lowSellAon;
        while r <= highSellAon && book[r].aonSells == []
          invariant lowSellAon <= r <= |book|
          invariant forall q :: 0 <= q < |book| && Chain(book[q], AonSells) != [] ==> r <= q
        {
          r := r + 1;
        }
        lowSellAon := r;
      } else if p == highSellAon {
        var r: nat := highSellAon;
        while r >= lowSellAon && book[r].aonSells == []
          invariant r <= highSellAon
          invariant forall q :: 0 <= q < |book| && Chain(book[q], AonSells) != [] ==> q <= r
        {
          r := r - 1;
        }
        highSellAon := r;
      }
      if lowSellAon > highSellAon {
        lowSellAon := |book|;
        highSellAon := 0;
      }
      AonsMoved(book, e, E());
    }
  
    function Best(bids: bool): nat
      reads `bid, `ask
    {
      if bids then bid else ask
    }

    /** The inside level of a side is not empty. */
    predicate Tight(bids: bool)
      reads `bid, `ask, `book
    {
      if bids then 0 < bid < |book| ==> book[bid].limits != [] else ask < |book| ==> book[ask].limits != []
    }

    /** The near edges of the all-or-none orders are exact. */
    predicate AonTight()
      reads `book, `highBuyAon, `lowSellAon
    {
      NearAons(book, highBuyAon, lowSellAon)
    }

    /** ... but for a side and a level whose chain was just emptied. */
    predicate AonTightBut(buys: bool, p: nat)
      reads `book, `highBuyAon, `lowSellAon
    {
      NearAons(book, if buys && highBuyAon == p then 0 else highBuyAon,
        if !buys && lowSellAon == p then |book| else lowSellAon)
    }

    function AonInWindow(bids: bool, p: nat): bool
      reads this
    {
      if bids then lowBuyAon <= p <= highBuyAon else lowSellAon <= p <= highSellAon
    }

    function LimitInWindow(bids: bool, p: nat): bool
      reads this
    {
      if bids then lowBuyLimit <= p <= bid else ask <= p <= highSellLimit
    }

    /** The AON chain of a level, on behalf of an order at work. */
    method TradeAons(bids: bool, p: nat, id: nat, size0: nat, ghost w: Job) returns (size: nat)
      requires 0 < p < |book| && Working(w, size0) && w.id == id && w.isBuy == !bids && AonTight()
      modifies `book, `cache, `timesales, `last, `totalVolume, `lastSize, `needCheck, `ledger
      modifies `lowBuyAon, `highBuyAon, `lowSellAon, `highSellAon
      ensures Working(w, size) && AonTight()
      ensures var h := HitAons(Chain(old(book)[p], AonKind(bids)), p, size0);
        && book == SetChain(old(book), p, AonKind(bids), h.rest) && size == h.left
        && timesales == old(timesales) + SalesOf(h.fills, id, base)
    {
      hide Sound, Engaged, HitAons, SalesOf, SetChain, WithChain, NearAons;
      size := size0;
      WorkingAons(this, p, bids, size0, w);
      NearSet(book, highBuyAon, lowSellAon, p, bids, HitAons(Chain(book[p], AonKind(bids)), p, size0).rest);
      if AonInWindow(bids, p) && Chain(book[p], AonKind(bids)) != [] {
        var all;
        size, all := HitAonChain(bids, p, id, size, w);
        if all {
          AonEmptied(bids, p);
        }
      } else {
        NoAons(p, size0);
        NoSales(id, base);
        SetSame(book, p, AonKind(bids));
      }
    }
  
    /** The limit chain of a level, on behalf of an order at work. Not ok: the
        source steps before the chain, having nothing left to trade, or a sell
        stepped aside. */
    method TradeLimits(bids: bool, p: nat, id: nat, size0: nat, ghost w: Job) returns (size: nat, ok: bool)
      requires 0 < p < |book| && Working(w, size0) && w.id == id && w.isBuy == !bids && Tight(!bids) && AonTight()
      modifies `book, `cache, `timesales, `last, `totalVolume, `lastSize, `needCheck, `ledger
      modifies `lowBuyAon, `highBuyAon, `lowSellAon, `highSellAon
      modifies `bid, `ask, `lowBuyLimit, `highSellLimit
      ensures ok <==> !(OnSide(bids, p, old(Best(bids))) && old(book[p].limits) != [] &&
                        (size0 == 0 || (!bids && HitLimits(old(book[p].limits), p, size0).moved != [])))
      ensures ok ==> Working(w, size) && Beyond(bids, old(Best(bids)), Best(bids)) && Best(!bids) == old(Best(!bids))
      ensures ok ==> Tight(!bids) && (old(Tight(bids)) ==> Tight(bids)) && AonTight()
      ensures ok ==>
        if OnSide(bids, p, old(Best(bids))) then
          var h := HitLimits(old(book[p].limits), p, size0);
          && book == LimitsHit(old(book), p, h.rest, h.moved) && size == h.left
          && timesales == old(timesales) + SalesOf(h.fills, id, base)
        else book == old(book) && size == size0 && timesales == old(timesales)
    {
      hide Sound, Engaged, HitLimits, SalesOf, NearAons;
      size, ok := size0, true;
      WorkingLimits(this, p, bids, size0, w);
      if LimitInWindow(bids, p) && book[p].limits != [] {
        if size == 0 {
          ok := false;
          return;
        }
        var all;
        size, all, ok := HitChain(bids, p, id, size, w);
        if !ok {
          return;
        }
        if all {
          FindNewBestInside(bids);
        }
      } else {
        NoLimits(p, size0);
        NoSales(id, base);
        LimitsUnhit(book, p);
      }
    }
  
    /** One level: the AON chain, then the limit chain. */
    method TradeLevel(bids: bool, p: nat, id: nat, size0: nat, ghost w: Job) returns (size: nat, ok: bool)
      requires 0 < p < |book| && Working(w, size0) && w.id == id && w.isBuy == !bids && Tight(true) && Tight(false)
        && AonTight()
      modifies `book, `cache, `timesales, `last, `totalVolume, `lastSize, `needCheck, `ledger
      modifies `lowBuyAon, `highBuyAon, `lowSellAon, `highSellAon
      modifies `bid, `ask, `lowBuyLimit, `highSellLimit
      ensures var h := HitLevel(old(book[p]), bids, OnSide(bids, p, old(Best(bids))), p, size0);
        && (ok <==> !h.fault)
        && (ok ==>
              && book == old(book)[p := h.level] && size == h.left
              && timesales == old(timesales) + SalesOf(h.fills, id, base))
      ensures ok ==>
        && Working(w, size) && Beyond(bids, old(Best(bids)), Best(bids)) && Best(!bids) == old(Best(!bids))
        && Tight(true) && Tight(false)
      ensures ok ==> AonTight()
    {
      hide Working, HitLimits, HitAons, SalesOf, NearAons;
      ghost var onSide := OnSide(bids, p, Best(bids));
      ghost var a := HitAons(Chain(book[p], AonKind(bids)), p, size0);
      LevelSales(book[p], bids, onSide, p, size0, id, base);
      LevelParts(book, p, bids, onSide, size0);
      size := TradeAons(bids, p, id, size0, w);
      size, ok := TradeLimits(bids, p, id, size, w);
    }
  
    function Begin(bids: bool): nat
      reads `bid, `ask, `highBuyAon, `lowSellAon
    {
      if bids then if bid >= highBuyAon then bid else highBuyAon
      else if ask <= lowSellAon then ask else lowSellAon
    }

    function End(bids: bool): nat
      reads `lowBuyLimit, `highSellLimit, `lowBuyAon, `highSellAon
    {
      if bids then if lowBuyLimit <= lowBuyAon then lowBuyLimit else lowBuyAon
      else if highSellLimit >= highSellAon then highSellLimit else highSellAon
    }

    function NextOrJump(bids: bool, p: nat): nat
      requires bids ==> p > 0
      reads `bid, `ask, `highBuyAon, `lowSellAon
    {
      if bids then if p - 1 <= Begin(bids) then p - 1 else Begin(bids)
      else if p + 1 >= Begin(bids) then p + 1 else Begin(bids)
    }

    /** Hitting the book from the cached edges equals the reference walk over all levels. */
    method MatchBook(bids: bool, plev: nat, id: nat, size0: nat, ghost w: Job) returns (size: nat, ok: bool)
      requires 0 < plev < |book| && Working(w, size0) && w.id == id && w.isBuy == !bids && Tight(true) && Tight(false)
        && AonTight()
      modifies `book, `cache, `timesales, `last, `totalVolume, `lastSize, `needCheck, `ledger
      modifies `lowBuyAon, `highBuyAon, `lowSellAon, `highSellAon
      modifies `bid, `ask, `lowBuyLimit, `highSellLimit
      ensures var m := Match(old(book), bids, old(Best(bids)), Outermost(bids, |old(book)|), plev, size0);
        && (ok <==> !m.fault)
        && (ok ==> book == m.book && size == m.left && timesales == old(timesales) + SalesOf(m.fills, id, base))
      ensures ok ==>
        && Working(w, size) && Tight(true) && Tight(false) && Beyond(bids, old(Best(bids)), Best(bids))
        && Best(!bids) == old(Best(!bids))
      ensures ok ==> AonTight()
    {
      hide Working, SalesOf, Match, HitLevel, Quiet, Walked, NearAons;
      ghost var inside := Best(bids);
      ghost var m := Match(book, bids, inside, Outermost(bids, |book|), plev, size0);
      ghost var fills: seq<Fill> := [];
      var p: nat := Begin(bids);
      var end := End(bids);
      size, ok := size0, true;
      NoSales(id, base);
      QuietOutsideEdges(this, bids, size0, w);
      WalkStart(book, bids, inside, plev, p, end, size0);
      while size > 0 && InsideOf(bids, p, plev) && InsideOf(bids, p, end)
        invariant Walked(old(book), book, bids, inside, p, plev, end, size, m, fills) && ok
        invariant Working(w, size) && Tight(true) && Tight(false) && Beyond(bids, inside, Best(bids))
          && Best(!bids) == old(Best(!bids))
        invariant AonTight()
        invariant timesales == old(timesales) + SalesOf(fills, id, base)
        decreases if bids then p else |old(book)| - p
      {
        WalkAt(old(book), book, bids, inside, p, plev, end, size, m, fills);
        SameSide(this, bids, inside, p, size, w);
        ghost var h := HitLevel(book[p], bids, OnSide(bids, p, inside), p, size);
        ghost var before, sizeBefore := book, size;
        SalesConcat(fills, h.fills, id, base);
        size, ok := TradeLevel(bids, p, id, size, w);
        if !ok {
          return;
        }
        QuietJump(this, bids, inside, size, w);
        ghost var q := NextOrJump(bids, p);
        WalkStep(old(book), before, bids, inside, p, plev, end, sizeBefore, m, fills, q);
        fills := fills + h.fills;
        p := NextOrJump(bids, p);
      }
      WalkEnd(old(book), book, bids, inside, p, plev, end, size, m, fills);
    }

    /** The orders that will still enter from the queue: queued, or stops that may be triggered. */
    ghost function Pending(): nat
      reads `cache, `queue
    {
      |StopIds(cache)| + |queue|
    }

    /** A side's stop window after the stops at p were triggered. */
    method StopTriggered(buys: bool, p: nat)
      requires Sound() && 0 < p < |book| && book[p].stops == []
      requires forall q :: 0 <= q < |book| && HasStop(book[q], buys) ==> if buys then p <= q else q <= p
      modifies `lowBuyStop, `highBuyStop, `lowSellStop, `highSellStop
      ensures Sound() && StopsAt(buys, p, old(lowBuyStop), old(highBuyStop), old(lowSellStop), old(highSellStop))
    {
      hide Covered, Ok, Stats;
      ghost var e := E();
      CoveredStops(book, e);
      assert !HasStop(book[p], buys);
      if buys {
        lowBuyStop := p + 1;
        if lowBuyStop > highBuyStop {
          lowBuyStop := |book|;
          highBuyStop := 0;
        }
      } else {
        highSellStop := p - 1;
        if highSellStop < lowSellStop {
          highSellStop := 0;
          lowSellStop := |book|;
        }
      }
      StopsMoved(book, e, E());
    }

    /** The stop windows once those of level p were triggered on behalf of a side. */
    ghost predicate StopsAt(buys: bool, p: nat, lowBuy: nat, highBuy: nat, lowSell: nat, highSell: nat)
      reads `book, `lowBuyStop, `highBuyStop, `lowSellStop, `highSellStop
    {
      if buys then
        && (lowBuyStop, highBuyStop) == (if p + 1 > highBuy then (|book|, 0) else (p + 1, highBuy))
        && lowSellStop == lowSell && highSellStop == highSell
      else
        && (lowSellStop, highSellStop) == (if p < lowSell + 1 then (|book|, 0) else (lowSell, p - 1))
        && lowBuyStop == lowBuy && highBuyStop == highBuy
    }

    /** One triggered stop, the first at plev of d, becomes a queued order under a new id. */
    method TriggerStop(e: Bundle, ghost d: Books, ghost plev: nat, ghost size: nat, ghost w: Job)
      requires plev < |d.book| && d.book[plev].stops != [] && e == d.book[plev].stops[0] && d == D().(book := d.book)
      requires Ok(d) && Holding(d.queue, d.ledger, d.hand, w.id, size, w.isBuy) && Carried(w.ledger, d.ledger, w.keep)
        && w.keep <= d.hand && InWork(d.queue, d.hand, w.work)
      modifies `lastId, `queue, `cache, `ledger, `hand
      ensures e.Stop? && lastId == old(lastId) + 1 && queue == old(queue) + [Triggered(e, lastId)]
        && Pending() == old(Pending())
      ensures var d' := D().(book := d.book[plev := d.book[plev].(stops := d.book[plev].stops[1..])]);
        Ok(d') && Holding(d'.queue, d'.ledger, d'.hand, w.id, size, w.isBuy) && Carried(w.ledger, d'.ledger,
          w.keep) && w.keep <= d'.hand && InWork(d'.queue, d'.hand, w.work)
    {
      hide Ok, Holding, Carried, StopIds;
      TriggerKeeps(d, plev, size, w);
      ghost var d' := Trigger(d, plev);
      lastId := lastId + 1;
      queue := queue + [Triggered(e, lastId)];
      ghost var a := ledger[e.id];
      ledger := ledger[e.id := a.(released := a.released + Open(a))][lastId := Account(e.isBuy, false, e.sz, 0, 0)];
      hand := hand + {lastId};
      cache := cache - {e.id};
      assert D().(book := d'.book) == d';
    }

    /** All stops of a level, of either side, are queued. */
    method HandleTriggeredStopChain(buys: bool, plev: nat, ghost size: nat, ghost w: Job)
      requires 0 < plev < |book| && Working(Now(w), size)
      requires forall q :: 0 <= q < |book| && HasStop(book[q], buys) ==> if buys then plev <= q else q <= plev
      modifies `book, `lastId, `queue, `cache, `ledger, `hand, `lowBuyStop, `highBuyStop, `lowSellStop, `highSellStop
      ensures Working(Now(w), size) && Pending() == old(Pending())
      ensures book == old(book)[plev := old(book[plev]).(stops := [])]
      ensures queue == old(queue) + Tickets(old(book[plev].stops), old(lastId))
        && lastId == old(lastId) + |old(book[plev].stops)|
      ensures forall k :: 0 <= k < |old(book[plev].stops)| ==>
        var b, t := old(book[plev].stops)[k], queue[|old(queue)| + k];
        && b.Stop? && t.id == old(lastId) + k + 1 && t.isBuy == b.isBuy && t.sz == b.sz && t.cond == Condition.Plain
        && if b.limit > 0 then t.otype == LimitOrder && t.limit == b.limit else t.otype == Market
      ensures StopsAt(buys, plev, old(lowBuyStop), old(highBuyStop), old(lowSellStop), old(highSellStop))
    {
      hide Sound, Engaged, Tickets, HasStop, Pending;
      AreStops(this, Now(w), size, plev);
      forall k | 0 <= k < |book[plev].stops| {
        TicketAt(book[plev].stops, lastId, k);
      }
      StopsLeft(book, plev);
      FreeStops(plev, size, w);
      StopTriggered(buys, plev);
    }

    /** The stops of a level are moved out of it and queued. */
    method FreeStops(plev: nat, ghost size: nat, ghost w: Job)
      requires plev < |book| && Working(Now(w), size)
      modifies `book, `lastId, `queue, `cache, `ledger, `hand
      ensures Working(Now(w), size)
      ensures Pending() == old(Pending()) && book == old(book)[plev := old(book[plev]).(stops := [])]
      ensures queue == old(queue) + Tickets(old(book[plev].stops), old(lastId))
        && lastId == old(lastId) + |old(book[plev].stops)|
    {
      hide Ok, Holding, Carried, Tickets, Pending, Covered, StopIds, Stats;
      CoveredFreed(book, E(), plev);
      QueueStops(plev, book[plev].stops, size, w);
    }

    method QueueStops(plev: nat, cchain: seq<Bundle>, ghost size: nat, ghost w: Job)
      requires plev < |book| && book[plev].stops == cchain
      requires Ok(D()) && Holding(queue, ledger, hand, w.id, size, w.isBuy) && Carried(w.ledger, ledger, w.keep)
        && w.keep <= hand && InWork(queue, hand, w.work)
      modifies `book, `lastId, `queue, `cache, `ledger, `hand
      ensures Ok(D()) && Holding(queue, ledger, hand, w.id, size, w.isBuy) && Carried(w.ledger, ledger, w.keep)
        && w.keep <= hand && InWork(queue, hand, w.work)
      ensures Pending() == old(Pending()) && book == old(book)[plev := old(book[plev]).(stops := [])]
      ensures queue == old(queue) + Tickets(cchain, old(lastId)) && lastId == old(lastId) + |cchain|
    {
      hide Ok, Holding, Carried, Tickets, Pending;
      ghost var d := D();
      book := book[plev := book[plev].(stops := [])];
      NoTickets(lastId);
      var i := 0;
      while i < |cchain|
        modifies `lastId, `queue, `cache, `ledger, `hand
        invariant i <= |cchain|
        invariant d == D().(book := book[plev := book[plev].(stops := cchain[i..])])
        invariant Ok(d) && Holding(d.queue, d.ledger, d.hand, w.id, size, w.isBuy)
          && Carried(w.ledger, d.ledger, w.keep) && w.keep <= d.hand && InWork(d.queue, d.hand, w.work)
        invariant Pending() == old(Pending())
        invariant queue == old(queue) + Tickets(cchain[..i], old(lastId)) && lastId == old(lastId) + i
      {
        assert d.book[plev].stops[0] == cchain[i] && cchain[i..][1..] == cchain[i + 1..];
        assert cchain[..i] + [cchain[i]] == cchain[..i + 1];
        TriggerStop(cchain[i], d, plev, size, w);
        TicketsPush(cchain[..i], cchain[i], old(lastId));
        i := i + 1;
        d := D().(book := d.book[plev := d.book[plev].(stops := cchain[i..])]);
      }
      assert cchain[..i] == cchain && cchain[i..] == [];
      assert book[plev := book[plev].(stops := [])] == book;
    }

    /** The buy stops up to the last price, lowest level first. */
    method SweepUp(ghost size: nat, ghost w: Job)
      requires Working(Now(w), size) && 0 < last < |book|
      modifies `book, `lastId, `queue, `cache, `ledger, `hand, `lowBuyStop, `highBuyStop, `lowSellStop, `highSellStop
      ensures Working(Now(w), size) && Pending() == old(Pending())
      ensures lowSellStop == old(lowSellStop) && highSellStop == old(highSellStop)
      ensures (lowBuyStop, highBuyStop) == UpWindow(|book|, old(lowBuyStop), old(highBuyStop), last)
      ensures book == Swept(old(book), old(lowBuyStop), last)
      ensures QueuedSoFar(old(queue), old(lastId), SweptUp(old(book), old(lowBuyStop), last), queue, lastId)
      ensures forall p :: 0 <= p < |book| && HasStop(book[p], true) ==> p > last
    {
      hide Working, StopIds, HasStop, Pending, UpSoFar, QueuedSoFar, Swept, SweptUp;
      StopFloor(this, size, Now(w));
      var p: nat := lowBuyStop;
      ghost var done: seq<Bundle> := [];
      UpStart(book, lowBuyStop, last);
      QueueStart(queue, lastId);
      while p <= last
        invariant Working(Now(w), size) && Pending() == old(Pending())
        invariant lowSellStop == old(lowSellStop) && highSellStop == old(highSellStop) && 0 < p && |book| == |old(book)|
        invariant (lowBuyStop, highBuyStop) == UpWindow(|book|, old(lowBuyStop), old(highBuyStop), p - 1)
          && old(lowBuyStop) <= p
        invariant p == old(lowBuyStop) || p <= last + 1
        invariant UpSoFar(old(book), old(lowBuyStop), last, p, book, done)
        invariant QueuedSoFar(old(queue), old(lastId), done, queue, lastId)
        decreases last + 1 - p
      {
        UpFloor(old(book), old(lowBuyStop), last, p, book, done);
        UpStep(old(book), old(lowBuyStop), last, p, book, done);
        QueueStep(old(queue), old(lastId), done, queue, lastId, book[p].stops);
        done := done + book[p].stops;
        HandleTriggeredStopChain(true, p, size, w);
        p := p + 1;
      }
      UpEnd(old(book), old(lowBuyStop), last, p, book, done);
    }

    /** The sell stops down to the last price, highest level first. */
    method SweepDown(ghost size: nat, ghost w: Job)
      requires Working(Now(w), size) && 0 < last < |book|
      modifies `book, `lastId, `queue, `cache, `ledger, `hand, `lowBuyStop, `highBuyStop, `lowSellStop, `highSellStop
      ensures Working(Now(w), size) && Pending() == old(Pending())
      ensures lowBuyStop == old(lowBuyStop) && highBuyStop == old(highBuyStop)
      ensures (lowSellStop, highSellStop) == DownWindow(|book|, old(lowSellStop), old(highSellStop), last)
      ensures old(highSellStop) < |old(book)| && book == Swept(old(book), last, old(highSellStop))
      ensures QueuedSoFar(old(queue), old(lastId), SweptDown(old(book), old(highSellStop), last), queue, lastId)
      ensures forall p :: 0 <= p < |book| && HasStop(book[p], false) ==> p < last
      ensures forall p :: 0 <= p < |book| && HasStop(book[p], true) ==> HasStop(old(book)[p], true)
    {
      hide Working, StopIds, HasStop, Pending, DownSoFar, QueuedSoFar, Swept, SweptDown;
      StopFloor(this, size, Now(w));
      var p: nat := highSellStop;
      ghost var done: seq<Bundle> := [];
      DownStart(book, highSellStop, last);
      QueueStart(queue, lastId);
      while p >= last
        invariant Working(Now(w), size) && Pending() == old(Pending())
        invariant lowBuyStop == old(lowBuyStop) && highBuyStop == old(highBuyStop) && |book| == |old(book)|
        invariant (lowSellStop, highSellStop) == DownWindow(|book|, old(lowSellStop), old(highSellStop), p + 1)
          && p <= old(highSellStop)
        invariant p == old(highSellStop) || last <= p + 1
        invariant DownSoFar(old(book), old(highSellStop), last, p, book, done)
        invariant QueuedSoFar(old(queue), old(lastId), done, queue, lastId)
        decreases p
      {
        DownCeiling(old(book), old(highSellStop), last, p, book, done);
        DownStep(old(book), old(highSellStop), last, p, book, done);
        QueueStep(old(queue), old(lastId), done, queue, lastId, book[p].stops);
        done := done + book[p].stops;
        HandleTriggeredStopChain(false, p, size, w);
        p := p - 1;
      }
      DownEnd(old(book), old(highSellStop), last, p, book, done);
    }

    /** Low to high for the buys, then high to low for the sells: every stop of a
        level in between is queued, whatever its side. */
    method LookForTriggeredStops(ghost size: nat, ghost w: Job)
      requires Working(Now(w), size) && last > 0
      modifies `book, `lastId, `queue, `cache, `ledger, `hand, `lowBuyStop, `highBuyStop, `lowSellStop, `highSellStop,
        `needCheck
      ensures Working(Now(w), size) && Pending() == old(Pending())
      ensures F() == Checked(old(F()))
      ensures forall p :: 0 <= p < |book| ==>
        (HasStop(book[p], true) ==> p > last) && (HasStop(book[p], false) ==> p < last)
    {
      hide Working, StopIds, Tickets, HasStop, Pending, SweptUp, SweptDown, Swept;
      StopFloor(this, size, Now(w));
      SweepUp(size, w);
      ghost var book1 := book;
      SweepDown(size, w);
      TicketsConcat(SweptUp(old(book), old(lowBuyStop), last), SweptDown(book1, old(highSellStop), last), old(lastId));
      CheckDone(size, w);
    }

    method CheckDone(ghost size: nat, ghost w: Job)
      requires Working(Now(w), size)
      modifies `needCheck
      ensures Working(Now(w), size) && !needCheck
    {
      hide Ok, Holding, Carried, StopIds, Covered, Volume;
      needCheck := false;
    }

    /** Everything is in order, with the order at work having size left. */
    ghost predicate Steady(w: Job, size: nat)
      reads `book, `bid, `ask, `cache, `queue, `lastId, `ledger, `hand, `timesales
      reads `lowBuyLimit, `highSellLimit, `lowBuyAon, `highBuyAon, `lowSellAon, `highSellAon
      reads `lowBuyStop, `highBuyStop, `lowSellStop, `highSellStop
      reads `totalVolume, `last, `lastSize, `needCheck, `base
    {
      Valid() && Engaged(Now(w), size)
    }

    /** What holds of the book between operations. */
    ghost predicate Valid()
      reads `book, `bid, `ask, `cache, `queue, `lastId, `ledger, `hand, `timesales
      reads `lowBuyLimit, `highSellLimit, `lowBuyAon, `highBuyAon, `lowSellAon, `highSellAon
      reads `lowBuyStop, `highBuyStop, `lowSellStop, `highSellStop
      reads `totalVolume, `last, `lastSize, `needCheck, `base
    {
      Sound() && Tight(true) && Tight(false) && AonTight() && StopsPriced(book, base) && QueuePriced(queue, base,
        |book|)
    }

    /** The book is matched with an order, up to level plev. */
    method MatchOrder(bids: bool, plev: nat, id: nat, size0: nat, ghost w: Job) returns (size: nat, ok: bool)
      requires 0 < plev < |book| && Steady(w, size0) && w.id == id && w.isBuy == !bids
      modifies `book, `cache, `timesales, `last, `totalVolume, `lastSize, `needCheck, `ledger
      modifies `lowBuyAon, `highBuyAon, `lowSellAon, `highSellAon
      modifies `bid, `ask, `lowBuyLimit, `highSellLimit
      ensures var r := Matched(old(F()), bids, plev, id, size0, base);
        (ok <==> !r.fault) && (ok ==> F() == r.f && size == r.left)
      ensures ok ==> Steady(w, size) && StopIds(cache) == old(StopIds(cache))
      ensures ok ==> SameChains(old(book), book, AonKind(!bids)) && (size > 0 ==> !OnSide(bids, plev, Best(bids)))
    {
      hide Sound, Engaged, Match, SalesOf, StopIds, StopsPriced, QueuePriced, SameChains, Matched, NearAons;
      ghost var w0, f0 := Now(w), F();
      SoundGap(this);
      Flagged(this, size0, Now(w));
      MatchedIs(this, bids, plev, id, size0);
      size, ok := MatchBook(bids, plev, id, size0, w0);
      if ok {
        MatchPriced(old(book), bids, old(Best(bids)), plev, size0, base);
        Flagged(this, size, w0);
        Uncrossed(this, old(book), bids, old(Best(bids)), plev, size0, size);
        AonsUnmatched(old(book), bids, old(Best(bids)), plev, size0);
        MatchedNow(this, f0, bids, plev, id, size0, size, w0);
      }
    }

    /** The guts of order execution: the book is matched, then triggered stops are queued. */
    method Trade(bids: bool, plev: nat, id: nat, size0: nat, ghost w: Job) returns (st: Status, size: nat)
      requires 0 < plev < |book| && Steady(w, size0) && w.id == id && w.isBuy == !bids
      modifies `book, `cache, `timesales, `last, `totalVolume, `lastSize, `needCheck, `ledger, `lastId, `queue, `hand
      modifies `lowBuyAon, `highBuyAon, `lowSellAon, `highSellAon, `lowBuyStop, `highBuyStop, `lowSellStop,
        `highSellStop
      modifies `bid, `ask, `lowBuyLimit, `highSellLimit
      ensures var r := Sent(old(F()), bids, plev, id, size0, base);
        && st == (if r.fault then Fault else Done)
        && (st.Done? ==> F() == r.f && size == r.left)
      ensures st.Done? ==> Steady(w, size) && Pending() == old(Pending())
      ensures st.Done? ==> SameChains(old(book), book, AonKind(!bids)) && (size > 0 ==> !OnSide(bids, plev, Best(bids)))
    {
      hide Steady, Matched, Settled, SameChains, StopIds, Unswept;
      var ok;
      size, ok := MatchOrder(bids, plev, id, size0, w);
      if !ok {
        return Fault, size;
      }
      ghost var book1 := book;
      CheckStops(size, w);
      AonsUnswept(book1, book, AonKind(!bids));
      SameTrans(old(book), book1, book, AonKind(!bids));
      st := Done;
    }

    /** Triggered stops are looked for if a trade asked for it. */
    method CheckStops(ghost size: nat, ghost w: Job)
      requires Steady(w, size)
      modifies `book, `lastId, `queue, `cache, `ledger, `hand, `lowBuyStop, `highBuyStop, `lowSellStop, `highSellStop,
        `needCheck
      ensures Steady(w, size) && Pending() == old(Pending())
      ensures F() == Settled(old(F())) && Unswept(old(book), book)
    {
      hide Sound, Engaged, Pending, HasStop, Swept, SweptUp, SweptDown, StopsPriced, QueuePriced, NearAons, Tickets,
        UpWindow, DownWindow;
      Flagged(this, size, Now(w));
      if needCheck {
        ghost var lo, hi := lowBuyStop, highSellStop;
        LookForTriggeredStops(size, w);
        SweepPriced(old(book), lo, hi, last, base, old(queue), old(lastId), queue, lastId);
        SweptApart(old(book), lo, last, hi);
        NearUnswept(old(book), book, highBuyAon, lowSellAon);
      }
    }

    /** Would a limit order at p, of the given side and size, be filled? Looking
        ahead tells exactly what trading would leave. */
    method LimitIsFillable(isBuy: bool, p: nat, sz: nat, allowPartial: bool) returns (ok: bool, tot: nat)
      requires Sound() && 0 < p < |book| && sz > 0
      ensures var left := Looked(F(), !isBuy, p, sz);
        && left == Match(book, !isBuy, Best(!isBuy), Outermost(!isBuy, |book|), p, sz).left
        && (!allowPartial ==> (ok <==> left == 0) && (!ok ==> tot == sz - left))
        && (allowPartial ==> (ok <==> left < sz))
    {
      hide Sound, HitLevel, HitLimits, Match, Left;
      var bids := !isBuy;
      ghost var inside := Best(bids);
      ghost var total := Left(book, bids, inside, Outermost(bids, |book|), p, sz);
      var b: nat := Begin(bids);
      tot := 0;
      LookStart(this, bids, p, sz);
      while InsideOf(bids, b, p)
        invariant OnBook(|book|, bids, b, p) && tot < sz && (allowPartial ==> tot == 0)
        invariant total == Left(book, bids, inside, b, p, sz - tot)
        decreases if bids then b else |book| - b
      {
        LookLevel(this, bids, b, p, sz - tot);
        ghost var tot0 := tot;
        if Chain(book[b], AonKind(bids)) != [] {
          ok, tot := CheckChain(Chain(book[b], AonKind(bids)), b, sz, tot, allowPartial);
          if ok {
            return;
          }
        }
        if LimitInWindow(bids, b) && book[b].limits != [] {
          ok, tot := CheckChain(book[b].limits, b, sz, tot, allowPartial);
          if ok {
            return;
          }
        }
        b := Next(bids, b);
      }
      LeftPast(book, bids, inside, b, p, sz - tot);
      ok := false;
    }

    /** A bundle leaves its chain and the cache. */
    method Erase(p: nat, k: Kind, i: nat)
      requires p < |book| && i < |Chain(book[p], k)|
      modifies `book, `cache, `hand
      ensures D() == Take(old(D()), p, k, i)
    {
      hide SetChain, WithChain, Without;
      var c := Chain(book[p], k);
      book := SetChain(book, p, k, Without(c, i));
      cache := cache - {c[i].id};
      hand := hand + {c[i].id};
    }

    /** An order leaves its AON chain. */
    method TakeAon(id: nat) returns (b: Bundle)
      requires Valid() && id in cache && (cache[id].kind == AonBuys || cache[id].kind == AonSells)
      modifies `book, `cache, `hand
      ensures Located(old(book), old(cache), id) && hand == old(hand) + {id} && cache == old(cache) - {id}
      ensures book == Cut(old(book), old(cache), id) && b == BundleOf(old(book), old(cache), id)
      ensures Sound() && Tight(true) && Tight(false) && StopsPriced(book, base) && StopIds(cache) == old(StopIds(cache))
      ensures var pl := old(cache[id]);
        pl.level < |book| && AonTightBut(pl.kind == AonBuys, pl.level)
          && (Chain(book[pl.level], pl.kind) != [] ==> AonTight())
    {
      hide Ok, Stats, Covered, SetChain, WithChain, StopIds, IndexOf, Without, StopsPriced, QueuePriced, NearAons;
      var pl := cache[id];
      InPlace(D(), id);
      var c := Chain(book[pl.level], pl.kind);
      var i := IndexOf(c, id);
      b := c[i];
      TakeOk(D(), pl.level, pl.kind, i);
      CoveredCut(book, E(), pl.level, pl.kind, Without(c, i));
      StopsUncut(book, pl.level, pl.kind, Without(c, i), base);
      LimitsUncut(book, pl.level, pl.kind, Without(c, i));
      StopsStay(cache, id);
      NearSet(book, highBuyAon, lowSellAon, pl.level, pl.kind == AonBuys, Without(c, i));
      ChainCut(book, pl.level, pl.kind, Without(c, i));
      Erase(pl.level, pl.kind, i);
    }

    /** Taking an order out of an AON chain. */
    method PopAon(id: nat) returns (b: Bundle)
      requires Valid() && id in cache && (cache[id].kind == AonBuys || cache[id].kind == AonSells)
      modifies `book, `cache, `hand, `lowBuyAon, `highBuyAon, `lowSellAon, `highSellAon
      ensures Valid() && Located(old(book), old(cache), id) && hand == old(hand) + {id} && cache == old(cache) - {id}
      ensures book == Cut(old(book), old(cache), id) && b == BundleOf(old(book), old(cache), id)
      ensures StopIds(cache) == old(StopIds(cache))
    {
      hide Sound, StopIds, StopsPriced, QueuePriced, NearAons, Cut, BundleOf, Located;
      var pl := cache[id];
      b := TakeAon(id);
      if Chain(book[pl.level], pl.kind) == [] {
        AonEmptied(pl.kind == AonBuys, pl.level);
      }
    }

    /** The last order of a limit chain of the given side was pulled. */
    method LimitPulled(buys: bool, p: nat)
      requires Sound() && Tight(!buys) && 0 < p < |book| && book[p].limits == [] && OnSide(buys, p, Best(buys))
      requires p != Best(buys) ==> Tight(buys)
      modifies `bid, `ask, `lowBuyLimit, `highSellLimit
      ensures Sound() && Tight(true) && Tight(false) && bid <= old(bid) && old(ask) <= ask
    {
      hide Ok, Stats, Covered;
      if buys {
        if p == lowBuyLimit {
          FarMoved(book, E(), lowBuyLimit + 1, highSellLimit);
          lowBuyLimit := lowBuyLimit + 1;
        }
        if p == bid {
          FindNewBestInside(true);
        }
      } else {
        if p == highSellLimit {
          FarMoved(book, E(), lowBuyLimit, highSellLimit - 1);
          highSellLimit := highSellLimit - 1;
        }
        if p == ask {
          FindNewBestInside(false);
        }
      }
    }

    /** An order leaves its limit chain. */
    method TakeLimit(id: nat) returns (b: Bundle)
      requires Valid() && id in cache && cache[id].kind == Limits
      modifies `book, `cache, `hand
      ensures Located(old(book), old(cache), id) && b == BundleOf(old(book), old(cache), id)
        && book == Cut(old(book), old(cache), id)
      ensures Sound() && AonTight() && StopsPriced(book, base) && hand == old(hand) + {id} && id !in cache
      ensures StopIds(cache) == old(StopIds(cache))
      ensures forall q :: 0 <= q < |book| && q != old(cache[id]).level ==> book[q] == old(book)[q]
    {
      hide Ok, Stats, Covered, SetChain, WithChain, StopIds, IndexOf, Without, StopsPriced, QueuePriced, NearAons;
      var p := cache[id].level;
      InPlace(D(), id);
      var i := IndexOf(book[p].limits, id);
      b := book[p].limits[i];
      TakeOk(D(), p, Limits, i);
      CoveredCut(book, E(), p, Limits, Without(book[p].limits, i));
      StopsUncut(book, p, Limits, Without(book[p].limits, i), base);
      LimitsElsewhere(book, p, Without(book[p].limits, i));
      StopsStay(cache, id);
      NearStruck(book, highBuyAon, lowSellAon, p, Without(book[p].limits, i));
      Erase(p, Limits, i);
    }

    /** Taking an order out of a limit chain; AON orders then in front go to the AON
        chain. Not ok: one of them is a sell. */
    method PopLimit(id: nat) returns (b: Bundle, ok: bool)
      requires Valid() && id in cache && cache[id].kind == Limits
      modifies `book, `cache, `hand, `bid, `ask, `lowBuyLimit, `highSellLimit, `lowBuyAon, `highBuyAon, `lowSellAon,
        `highSellAon
      ensures Located(old(book), old(cache), id) && b == BundleOf(old(book), old(cache), id)
      ensures var p := old(cache[id]).level; var c := Cut(old(book), old(cache), id)[p].limits; var n := FrontAons(c);
        && (ok <==> p < old(ask) || n == 0)
        && (ok ==> book == LimitsHit(Cut(old(book), old(cache), id), p, c[n..], c[..n]))
      ensures ok ==> Valid() && hand == old(hand) + {id} && StopIds(cache) == old(StopIds(cache)) && id !in cache
      ensures ok ==> bid <= old(bid) && old(ask) <= ask
    {
      hide Sound, StopIds, BundleOf, StopsPriced, QueuePriced, FrontAons, NearAons, Cut, Located, Taped;
      var p := cache[id].level;
      LimitSomewhere(this, id);
      b := TakeLimit(id);
      ok := FreeFront(p, id);
      if !ok {
        return;
      }
      if book[p].limits == [] {
        if p <= bid {
          LimitPulled(true, p);
        } else {
          LimitPulled(false, p);
        }
      }
    }

    /** AON orders in front of a limit chain go to the AON chain. */
    method FreeFront(p: nat, id: nat) returns (ok: bool)
      requires Sound() && AonTight() && 0 < p < |book| && StopsPriced(book, base) && id !in cache
      modifies `book, `cache, `lowBuyAon, `highBuyAon, `lowSellAon, `highSellAon
      ensures var c := old(book[p].limits); var n := FrontAons(c);
        && (ok <==> p < ask || n == 0)
        && (ok ==> book == LimitsHit(old(book), p, c[n..], c[..n]))
      ensures ok ==>
        && Sound() && AonTight() && StopsPriced(book, base) && StopIds(cache) == old(StopIds(cache)) && id !in cache
    {
      hide Sound, StopIds, StopsPriced, LimitsHit, NearAons;
      ghost var c := book[p].limits;
      ghost var n := 0;
      ok := true;
      assert c[0..] == c && c[..0] == [];
      LimitsUnhit(book, p);
      while book[p].limits != [] && IsAon(book[p].limits[0])
        invariant |book| == |old(book)| && ok && n <= |c| && (n > 0 ==> p < ask)
        invariant book[p].limits == c[n..] && book == LimitsHit(old(book), p, c[n..], c[..n])
        invariant FrontAons(c) == n + FrontAons(c[n..])
        invariant Sound() && AonTight() && StopsPriced(book, base) && StopIds(cache) == old(StopIds(cache))
          && id !in cache
        decreases |book[p].limits|
      {
        assert c[n..][1..] == c[n + 1..] && c[..n] + [c[n]] == c[..n + 1];
        LimitsHitTwice(old(book), p, c[n..], c[..n], c[n + 1..], [c[n]]);
        AsidePriced(book, p, base);
        FrontId(this, p, id);
        ok := CopyToAonChain(p);
        if !ok {
          return;
        }
        n := n + 1;
      }
    }

    /** The stop window after the last stop of a level was pulled. */
    method StopPulled(buys: bool, p: nat)
      requires Sound() && 0 < p < |book| && book[p].stops == []
        && (if buys then lowBuyStop <= p <= highBuyStop else lowSellStop <= p <= highSellStop)
      modifies `lowBuyStop, `highBuyStop, `lowSellStop, `highSellStop
      ensures Sound() && E() == StopWindowCut(old(E()), buys, p, |book|)
    {
      hide Ok, Stats, Covered;
      CoveredStops(book, E());
      assert !HasStop(book[p], buys);
      StopsMoved(book, E(), StopWindowCut(E(), buys, p, |book|));
      ShrinkStops(buys, p);
    }

    method ShrinkStops(buys: bool, p: nat)
      requires if buys then lowBuyStop <= p <= highBuyStop else lowSellStop <= p <= highSellStop
      modifies `lowBuyStop, `highBuyStop, `lowSellStop, `highSellStop
      ensures E() == StopWindowCut(old(E()), buys, p, |book|)
    {
      if buys {
        if highBuyStop == lowBuyStop {
          highBuyStop := 0;
          lowBuyStop := |book|;
        } else if p == highBuyStop {
          highBuyStop := highBuyStop - 1;
        } else if p == lowBuyStop {
          lowBuyStop := lowBuyStop + 1;
        }
      } else {
        if highSellStop == lowSellStop {
          highSellStop := 0;
          lowSellStop := |book|;
        } else if p == highSellStop {
          highSellStop := highSellStop - 1;
        } else if p == lowSellStop {
          lowSellStop := lowSellStop + 1;
        }
      }
    }

    /** Taking an order out of a stop chain. */
    method PopStop(id: nat) returns (b: Bundle)
      requires Valid() && id in cache && cache[id].kind == Stops
      modifies `book, `cache, `hand, `lowBuyStop, `highBuyStop, `lowSellStop, `highSellStop
      ensures Valid() && Located(old(book), old(cache), id) && hand == old(hand) + {id} && cache == old(cache) - {id}
      ensures book == Cut(old(book), old(cache), id) && b == BundleOf(old(book), old(cache), id)
      ensures b.Stop? && F() == StopGone(old(F()), book, b.isBuy, old(cache[id]).level)
    {
      hide Ok, Stats, Covered, SetChain, WithChain, StopIds, IndexOf, Without, StopsPriced, QueuePriced, NearAons,
        StopGone;
      var p := cache[id].level;
      InPlace(D(), id);
      var i := IndexOf(book[p].stops, id);
      b := book[p].stops[i];
      TakeOk(D(), p, Stops, i);
      StopsWithout(D(), E(), p, i, base);
      LimitsUncut(book, p, Stops, Without(book[p].stops, i));
      NearStops(book, highBuyAon, lowSellAon, p, Without(book[p].stops, i));
      Erase(p, Stops, i);
      StopGoneSame(old(F()), book, b.isBuy, p);
      CloseStops(b.isBuy, p);
    }

    /** A stop of level p was pulled, which may have been the last there. */
    method CloseStops(buys: bool, p: nat)
      requires Sound() && 0 < p < |book| && (if buys then lowBuyStop <= p <= highBuyStop
        else lowSellStop <= p <= highSellStop)
      modifies `lowBuyStop, `highBuyStop, `lowSellStop, `highSellStop
      ensures Sound() && F() == StopGone(old(F()), book, buys, p)
    {
      hide Sound;
      if book[p].stops == [] {
        StopPulled(buys, p);
      }
    }

    method LimitInserted(buys: bool, p: nat)
      modifies `bid, `ask, `lowBuyLimit, `highSellLimit
      ensures E() == InsertedLimit(old(E()), buys, p)
    {
      if buys {
        if p >= bid {
          bid := p;
        }
        if p < lowBuyLimit {
          lowBuyLimit := p;
        }
      } else {
        if p <= ask {
          ask := p;
        }
        if p > highSellLimit {
          highSellLimit := p;
        }
      }
    }

    /** A bundle goes to the back of a chain and into the cache. */
    method Push(p: nat, k: Kind, b: Bundle)
      requires p < |book|
      modifies `book, `cache, `hand
      ensures book == Pushed(old(book), p, k, b) && cache == old(cache)[b.id := Place(k, p)]
        && hand == old(hand) - {b.id}
    {
      hide Pushed;
      book := Pushed(book, p, k, b);
      cache := cache[b.id := Place(k, p)];
      hand := hand - {b.id};
    }

    /** An order in hand goes to the back of a limit chain that is not crossed. */
    method PushLimit(buys: bool, p: nat, b: Bundle)
      requires Valid() && Ready(D(), Limits, b) && ledger[b.id].isBuy == buys
      requires 0 < p < |book| && if buys then p < ask else p > bid
      modifies `book, `cache, `hand, `bid, `ask, `lowBuyLimit, `highSellLimit
      ensures Valid() && book == Pushed(old(book), p, Limits, b) && hand == old(hand) - {b.id}
      ensures cache == old(cache)[b.id := Place(Limits, p)] && StopIds(cache) == old(StopIds(cache))
      ensures E() == InsertedLimit(old(E()), buys, p) && F() == LimitRested(old(F()), buys, p, b)
      ensures book == old(book)[p := old(book[p]).(limits := old(book[p]).limits + [b])]
    {
      hide Ok, Stats, Covered, StopIds, StopsPriced, QueuePriced, Ready, Pushed, InsertedLimit, NearAons, LimitRested;
      NearPushed(book, highBuyAon, lowSellAon, p, Limits, b);
      ghost var e := InsertedLimit(E(), buys, p);
      CoveredGap(book, E());
      PushedInside(book, E(), buys, p, b);
      WidenOk(D(), e.bid, e.ask);
      ghost var d := D().(bid := e.bid, ask := e.ask);
      ReadyStill(D(), d, Limits, b);
      PushOk(d, p, Limits, b);
      CoveredLimit(book, E(), buys, p, b);
      PushedElsewhere(book, p, Limits, b, base);
      StopsSame(cache, b.id, Place(Limits, p));
      AddLimit(buys, p, b);
    }

    method AddLimit(buys: bool, p: nat, b: Bundle)
      requires p < |book|
      modifies `book, `cache, `hand, `bid, `ask, `lowBuyLimit, `highSellLimit
      ensures E() == InsertedLimit(old(E()), buys, p)
      ensures D() == old(D()).(book := Pushed(old(book), p, Limits, b), cache := old(cache)[b.id := Place(Limits, p)],
                               hand := old(hand) - {b.id}, bid := E().bid, ask := E().ask)
      ensures p > 0 ==> F() == LimitRested(old(F()), buys, p, b)
      ensures book == old(book)[p := old(book[p]).(limits := old(book[p]).limits + [b])]
    {
      LimitPushed(book, p, b);
      hide Pushed;
      Push(p, Limits, b);
      LimitInserted(buys, p);
    }

    /** An all-or-none order in hand goes to the back of an AON chain. */
    method PushAon(buys: bool, p: nat, b: Bundle)
      requires Valid() && Ready(D(), AonKind(buys), b) && 0 < p < |book|
      modifies `book, `cache, `hand, `lowBuyAon, `highBuyAon, `lowSellAon, `highSellAon
      ensures Valid() && book == Pushed(old(book), p, AonKind(buys), b) && hand == old(hand) - {b.id}
      ensures cache == old(cache)[b.id := Place(AonKind(buys), p)] && StopIds(cache) == old(StopIds(cache))
      ensures F() == old(F()).(book := book)
      ensures book == old(book)[p := if buys then old(book[p]).(aonBuys := old(book[p]).aonBuys + [b])
        else old(book[p]).(aonSells := old(book[p]).aonSells + [b])]
    {
      hide Ok, Stats, Covered, StopIds, StopsPriced, QueuePriced, Ready, Pushed, InsertedAon, NearAons;
      var k := AonKind(buys);
      NearAdded(book, E(), p, buys, b);
      PushOk(D(), p, k, b);
      CoveredAon(book, E(), buys, p, b);
      PushedElsewhere(book, p, k, b, base);
      StopsSame(cache, b.id, Place(k, p));
      AddAon(buys, p, b);
    }

    method AddAon(buys: bool, p: nat, b: Bundle)
      requires p < |book|
      modifies `book, `cache, `hand, `lowBuyAon, `highBuyAon, `lowSellAon, `highSellAon
      ensures E() == InsertedAon(old(E()), buys, p)
      ensures D() == old(D()).(book := Pushed(old(book), p, AonKind(buys), b),
        cache := old(cache)[b.id := Place(AonKind(buys), p)],
                               hand := old(hand) - {b.id})
      ensures book == old(book)[p := if buys then old(book[p]).(aonBuys := old(book[p]).aonBuys + [b])
        else old(book[p]).(aonSells := old(book[p]).aonSells + [b])]
    {
      AonPushed(book, p, buys, b);
      hide Pushed, InsertedAon;
      Push(p, AonKind(buys), b);
      AonInserted(buys, p);
    }

    method StopInserted(buys: bool, p: nat)
      modifies `lowBuyStop, `highBuyStop, `lowSellStop, `highSellStop
      ensures E() == InsertedStop(old(E()), buys, p)
    {
      if buys {
        if p < lowBuyStop {
          lowBuyStop := p;
        }
        if p > highBuyStop {
          highBuyStop := p;
        }
      } else {
        if p > highSellStop {
          highSellStop := p;
        }
        if p < lowSellStop {
          lowSellStop := p;
        }
      }
    }

    method AddStop(p: nat, b: Bundle)
      requires p < |book| && b.Stop?
      modifies `book, `cache, `hand, `lowBuyStop, `highBuyStop, `lowSellStop, `highSellStop
      ensures E() == InsertedStop(old(E()), b.isBuy, p)
      ensures D() == old(D()).(book := Pushed(old(book), p, Stops, b), cache := old(cache)[b.id := Place(Stops, p)],
                               hand := old(hand) - {b.id})
    {
      hide Pushed, InsertedStop;
      Push(p, Stops, b);
      StopInserted(b.isBuy, p);
    }

    /** A stop in hand goes to the back of a stop chain. */
    method PushStop(p: nat, b: Bundle)
      requires Valid() && Ready(D(), Stops, b) && 0 < p < |book| && b.Stop? && PricedIn(b.limit, base, |book|)
      modifies `book, `cache, `hand, `lowBuyStop, `highBuyStop, `lowSellStop, `highSellStop
      ensures Valid() && F() == StopRested(old(F()), p, b) && hand == old(hand) - {b.id}
      ensures cache == old(cache)[b.id := Place(Stops, p)]
    {
      hide Ok, Stats, Covered, StopsPriced, QueuePriced, Ready, Pushed, NearAons;
      NearPushed(book, highBuyAon, lowSellAon, p, Stops, b);
      CoveredStop(book, E(), p, b);
      PushedStop(book, p, b, base);
      PushOk(D(), p, Stops, b);
      AddStop(p, b);
    }

    /** The AON orders of a side that reach p. */
    method Overlapping(bids: bool, p: nat) returns (os: seq<Overlap>)
      requires Sound() && 0 < p < |book|
      ensures os == Overlapped(book, bids, p)
    {
      hide Sound, Overlapped, Tagged;
      os := [];
      var q: nat := p;
      assert os + Overlapped(book, bids, p) == Overlapped(book, bids, p);
      OverlapWindow(this, bids);
      while if bids then q <= highBuyAon else q >= lowSellAon
        invariant Reaching(|book|, bids, q) && Overlapped(book, bids, p) == os + Overlapped(book, bids, q)
        decreases if bids then |book| - q else q
      {
        var here := Tagged(q, Chain(book[q], AonKind(bids)));
        OverlapStep(book, bids, q, os);
        os := os + here;
        q := Next(!bids, q);
      }
      NoOverlaps(book, bids, q);
      assert os + [] == os;
    }

    /** What a job is to keep is kept. */
    ghost predicate Kept(w: Job)
      reads `queue, `ledger, `hand
    {
      Carried(w.ledger, ledger, w.keep) && w.keep <= hand && InWork(queue, hand, w.work)
    }

    /** The job of an AON order that is taken out of the book while w is at work. */
    ghost function JobOf(b: Bundle, isBuy: bool, w: Job): Job
      reads `ledger, `hand
    {
      Job(b.id, isBuy, ledger, hand, {}, false, 0, w.work + {b.id})
    }

    /** A resting AON order is taken out of its chain and sent to the other side. */
    method SendAon(isBuy: bool, o: Overlap, ghost w: Job) returns (st: Status, left: nat)
      requires Valid() && Kept(w)
      requires 0 < o.level < |book| && o.bundle in Chain(book[o.level], AonKind(isBuy))
      modifies `book, `cache, `timesales, `last, `totalVolume, `lastSize, `needCheck, `ledger, `lastId, `queue, `hand
      modifies `lowBuyAon, `highBuyAon, `lowSellAon, `highSellAon, `lowBuyStop, `highBuyStop, `lowSellStop,
        `highSellStop
      modifies `bid, `ask, `lowBuyLimit, `highSellLimit
      ensures o.bundle.id !in old(hand) && o.bundle.id in old(cache)
      ensures var r := Executed(old(F()), !isBuy, o, base);
        && st == (if r.fault then Fault else Done)
        && (st.Done? ==> F() == r.f && left == r.left)
      ensures st.Done? ==>
        && Steady(old(JobOf(o.bundle, isBuy, w)), left) && Pending() == old(Pending())
        && |book| == |old(book)| && ButFor(old(book), book, AonKind(isBuy), o.bundle.id)
    {
      hide Valid, Steady, Kept, Engaged, StopIds, Match, Located, SameChains, ButFor, Holding, Carried, InWork, Pull,
        Sent, Cut, AtWork, Named, Unique;
      ghost var w1 := JobOf(o.bundle, isBuy, w);
      LiftAon(this, o, isBuy, w);
      CutButFor(book, cache, o.bundle.id, AonKind(isBuy));
      PullCut(book, cache, isBuy, o);
      var b := PopAon(o.bundle.id);
      ghost var book1 := book;
      LiftEngaged(this, w1, b.sz);
      st, left := Trade(!isBuy, o.level, b.id, b.sz, w1);
      if st.Done? {
        SameButFor(old(book), book1, book, AonKind(isBuy), o.bundle.id);
      }
    }

    /** What an AON order still wants it takes from the order at work, at that order's level. */
    method CloseAon(p: nat, id: nat, left: nat, eid: nat, rmndr: nat, ghost w1: Job, ghost w: Job)
      requires Steady(w1, left) && w1.id == id && w.id == eid && 0 < p < |book| && w1.isBuy == !w.isBuy
      requires left <= rmndr && Holding(queue, ledger, hand, w.id, rmndr, w.isBuy)
      requires Carried(w.ledger, ledger, w.keep) && w.keep <= hand && id !in w.keep && w.id !in w.keep
      requires InWork(queue, hand, w.work + {id}) && id !in w.work && id != w.id
      modifies `timesales, `last, `totalVolume, `lastSize, `needCheck, `ledger, `hand
      ensures Steady(w, rmndr - left) && F() == Closed(old(F()), p, id, eid, left, base)
    {
      hide Ok, Covered, Carried, StopIds, Closing, StopsPriced, QueuePriced, Stats, InWork, Holding, DealtWith,
        NearAons;
      HoldingFacts(queue, ledger, hand, w.id, rmndr, w.isBuy);
      HoldingFacts(queue, ledger, hand, id, left, w1.isBuy);
      ClosedOk(D(), id, left, rmndr, Itop(p), w);
      TradeAndClose(p, id, left, eid);
    }

    /** id trades what is left of it, if anything, with eid, and is done. */
    method TradeAndClose(p: nat, id: nat, left: nat, eid: nat)
      requires Stats() && 0 < p < |book| && id in ledger && eid in ledger
      modifies `timesales, `last, `totalVolume, `lastSize, `needCheck, `ledger, `hand
      ensures Stats() && (left > 0 ==> last == p)
      ensures D() == DealtWith(old(D()), id, eid, left, Itop(p)) && (left == 0 ==> last == old(last))
      ensures F() == Closed(old(F()), p, id, eid, left, base)
    {
      hide Volume;
      if left > 0 {
        TradeHasOccured(p, left, id, eid);
      }
      hand := hand - {id};
    }

    /** An AON order of the other side is filled, from the book and from the order at work. */
    method FillAon(isBuy: bool, p: nat, id: nat, o: Overlap, rmndr0: nat, ghost w: Job) returns (st: Status, rmndr: nat)
      requires Steady(w, rmndr0) && w.id == id && w.isBuy == isBuy && id in w.work && 0 < p < |book|
      requires 0 < o.level < |book| && o.bundle in Chain(book[o.level], AonKind(!isBuy))
      modifies `book, `cache, `timesales, `last, `totalVolume, `lastSize, `needCheck, `ledger, `lastId, `queue, `hand
      modifies `lowBuyAon, `highBuyAon, `lowSellAon, `highSellAon, `lowBuyStop, `highBuyStop, `lowSellStop,
        `highSellStop
      modifies `bid, `ask, `lowBuyLimit, `highSellLimit
      ensures var r := Executed(old(F()), isBuy, o, base);
        && st == (if r.fault then Fault else if r.left > rmndr0 then LeftOver else Done)
        && (st.Done? ==> F() == Closed(r.f, p, o.bundle.id, id, r.left, base) && rmndr == rmndr0 - r.left)
      ensures st.Done? ==>
        && Steady(w, rmndr) && Pending() == old(Pending())
        && |book| == |old(book)| && ButFor(old(book), book, AonKind(!isBuy), o.bundle.id)
    {
      hide Sound, Engaged, StopIds, Executed, StopsPriced, QueuePriced, Located, ButFor, Holding, Carried, InWork,
        NearAons, Closed;
      var left;
      rmndr := rmndr0;
      StillKept(this, w, rmndr0);
      ghost var w1 := JobOf(o.bundle, !w.isBuy, w);
      st, left := SendAon(!isBuy, o, w);
      if !st.Done? {
        return;
      }
      if left > rmndr {
        return LeftOver, rmndr;
      }
      StillHeld(old(queue), old(ledger), old(hand), this, w, w1, rmndr0, left);
      CloseAon(p, o.bundle.id, left, id, rmndr, w1, w);
      rmndr := rmndr - left;
    }

    ghost function Snap(): Snapshot
      reads `book, `bid, `ask, `cache, `queue, `lastId, `ledger, `hand, `timesales
      reads `lowBuyLimit, `highSellLimit, `lowBuyAon, `highBuyAon, `lowSellAon, `highSellAon
      reads `lowBuyStop, `highBuyStop, `lowSellStop, `highSellStop
      reads `totalVolume, `last, `lastSize, `needCheck
    {
      Snapshot(D(), E(), last, totalVolume, lastSize, needCheck)
    }

    /** An overlapping AON order is executed if the book suffices, or the book with the new order. */
    method TryAon(isBuy: bool, p: nat, id: nat, aon: bool, o: Overlap, rmndr0: nat, ghost w: Job) returns (st: Status,
            rmndr: nat)
      requires Steady(w, rmndr0) && w.id == id && w.isBuy == isBuy && id in w.work && 0 < p < |book|
      requires 0 < o.level < |book| && o.bundle in Chain(book[o.level], AonKind(!isBuy)) && o.bundle.sz > 0
      modifies `book, `cache, `timesales, `last, `totalVolume, `lastSize, `needCheck, `ledger, `lastId, `queue, `hand
      modifies `lowBuyAon, `highBuyAon, `lowSellAon, `highSellAon, `lowBuyStop, `highBuyStop, `lowSellStop,
        `highSellStop
      modifies `bid, `ask, `lowBuyLimit, `highSellLimit
      ensures var left := Looked(old(F()), isBuy, o.level, o.bundle.sz);
        var r := Executed(old(F()), isBuy, o, base);
        if Suffices(aon, left, rmndr0) then
          && st == (if r.fault then Fault else Done)
          && (st.Done? ==> F() == Closed(r.f, p, o.bundle.id, id, left, base) && rmndr == rmndr0 - left)
          && (st.Done? ==> ButFor(old(book), book, AonKind(!isBuy), o.bundle.id))
        else st.Done? && Snap() == old(Snap()) && rmndr == rmndr0
      ensures st.Done? ==> Steady(w, rmndr) && Pending() == old(Pending()) && |book| == |old(book)|
      ensures |old(book)| > 1
      ensures var left := Match(old(book), isBuy, old(Best(isBuy)), Outermost(isBuy, |old(book)|), o.level,
                                o.bundle.sz).left;
        st.Done? ==>
          && (o.bundle !in Chain(book[o.level], AonKind(!isBuy)) <==>
                left == 0 || (aon && left == rmndr0) || (!aon && left < rmndr0))
          && rmndr == (if o.bundle in Chain(book[o.level], AonKind(!isBuy)) then rmndr0 else rmndr0 - left)
          && (rmndr < rmndr0 ==>
                timesales != [] && timesales[|timesales| - 1] == Sale(Itop(p), left, o.bundle.id, id))
    {
      hide Sound, Engaged, StopIds, Looked, Executed, Match, StopsPriced, QueuePriced, ButFor, Pending, NearAons,
        Closed;
      st, rmndr := Done, rmndr0;
      Roomy(this);
      MatchLeft(book, book, isBuy, Best(isBuy), Outermost(isBuy, |book|), o.level, o.bundle.sz);
      LookedIs(this, isBuy, o.level, o.bundle.sz);
      ExecutedLeft(F(), isBuy, o, base);
      var fillable, tot := LimitIsFillable(!isBuy, o.level, o.bundle.sz, false);
      var available := rmndr + tot;
      if fillable || (aon && o.bundle.sz == available) || (!aon && o.bundle.sz < available) {
        ghost var r := Executed(F(), isBuy, o, base);
        ghost var k := AonKind(!isBuy);
        st, rmndr := FillAon(isBuy, p, id, o, rmndr, w);
        if st.Done? {
          TakenOut(old(book), book, k, o);
          ClosingLast(r.f, p, o.bundle.id, id, r.left, base);
        }
      }
    }

    /** Older all-or-none orders of the other side are executed first, the farthest from
        the limit before the others, if the book and the new order suffice. */
    method MatchAonsPre(isBuy: bool, p: nat, id: nat, sz: nat, aon: bool, ghost w: Job) returns (st: Status, rmndr: nat)
      requires 0 < p < |book| && Steady(w, sz) && sz > 0 && w.id == id && w.isBuy == isBuy && id in w.work
      modifies `book, `cache, `timesales, `last, `totalVolume, `lastSize, `needCheck, `ledger, `lastId, `queue, `hand
      modifies `lowBuyAon, `highBuyAon, `lowSellAon, `highSellAon, `lowBuyStop, `highBuyStop, `lowSellStop,
        `highSellStop
      modifies `bid, `ask, `lowBuyLimit, `highSellLimit
      ensures var r := PreOf(old(F()), isBuy, p, id, sz, aon, base);
        && st == (if r.fault then Fault else Done)
        && (st.Done? ==> F() == r.f && rmndr == r.left)
      ensures st.Done? ==> Steady(w, rmndr) && Pending() == old(Pending()) && |book| == |old(book)|
      ensures Overlapped(old(book), !isBuy, p) == [] ==> Snap() == old(Snap())
    {
      hide Sound, Engaged, StopIds, PrePass, StopsPriced, QueuePriced, Standing, Separate, Overlapped, Pending, ButFor,
        Leveled, Suffices;
      hide Looked, Executed, Match, Closed, NearAons;
      var os := Overlapping(!isBuy, p);
      OverlapsSorted(this, !isBuy, p);
      ghost var r := PrePass(F(), isBuy, os, p, id, aon, sz, base);
      var i := |os|;
      st, rmndr := Done, sz;
      assert os[..i] == os;
      while i > 0 && rmndr > 0
        invariant i <= |os| && Steady(w, rmndr) && rmndr <= sz
        invariant Standing(book, !isBuy, os[..i]) && Separate(os[..i]) && Leveled(|book|, os[..i])
        invariant PrePass(F(), isBuy, os[..i], p, id, aon, rmndr, base) == r
        invariant Pending() == old(Pending()) && |book| == |old(book)|
        invariant i == |os| ==> Snap() == old(Snap())
        invariant st.Done?
        decreases i
      {
        assert os[..i][..i - 1] == os[..i - 1] && os[..i][i - 1] == os[i - 1];
        var o := os[i - 1];
        LastStanding(this, !isBuy, os[..i]);
        PreStep(F(), isBuy, os[..i], p, id, aon, rmndr, base);
        ghost var book0, tried := book, Suffices(aon, Looked(F(), isBuy, o.level, o.bundle.sz), rmndr);
        st, rmndr := TryAon(isBuy, p, id, aon, o, rmndr, w);
        if !st.Done? {
          return;
        }
        if tried {
          StillStanding(book0, book, !isBuy, os[..i]);
        }
        i := i - 1;
      }
      PreEnd(F(), isBuy, os[..i], p, id, aon, rmndr, base);
    }

    /** An AON order that was filled from the book is done. */
    method CloseSpent(id: nat, ghost w1: Job, ghost w: Job)
      requires Steady(w1, 0) && w1.id == id
      requires Carried(w.ledger, ledger, w.keep) && w.keep <= hand && id !in w.keep
        && InWork(queue, hand, w.work + {id}) && id !in w.work
      modifies `hand
      ensures Valid() && Kept(w)
    {
      hide Ok, Covered, Carried, StopIds, StopsPriced, QueuePriced, Stats, InWork;
      SettleOk(D(), id);
      OutOfWork(queue, hand, w.work, id);
      hand := hand - {id};
    }

    /** An overlapping AON order is executed if the book suffices. */
    method RetryAon(isBuy: bool, o: Overlap, ghost w: Job) returns (st: Status)
      requires Valid() && Kept(w)
      requires 0 < o.level < |book| && o.bundle in Chain(book[o.level], AonKind(!isBuy)) && o.bundle.sz > 0
      modifies `book, `cache, `timesales, `last, `totalVolume, `lastSize, `needCheck, `ledger, `lastId, `queue, `hand
      modifies `lowBuyAon, `highBuyAon, `lowSellAon, `highSellAon, `lowBuyStop, `highBuyStop, `lowSellStop,
        `highSellStop
      modifies `bid, `ask, `lowBuyLimit, `highSellLimit
      ensures var r := Executed(old(F()), isBuy, o, base);
        if Looked(old(F()), isBuy, o.level, o.bundle.sz) == 0 then
          && st == (if r.fault then Fault else Done)
          && (st.Done? ==> F() == r.f && ButFor(old(book), book, AonKind(!isBuy), o.bundle.id))
        else st.Done? && Snap() == old(Snap())
      ensures st.Done? ==> Valid() && Kept(w) && Pending() == old(Pending()) && |book| == |old(book)|
    {
      hide Sound, Engaged, StopIds, Looked, Executed, Match, StopsPriced, QueuePriced, ButFor, Pending, Holding,
        Carried, InWork, NearAons;
      st := Done;
      ExecutedLeft(F(), isBuy, o, base);
      var fillable, tot := LimitIsFillable(!isBuy, o.level, o.bundle.sz, false);
      if fillable {
        ghost var w1 := JobOf(o.bundle, !isBuy, w);
        var left;
        st, left := SendAon(!isBuy, o, w);
        if !st.Done? {
          return;
        }
        if left > 0 {
          return LeftOver;
        }
        KeptAfter(old(queue), old(ledger), old(hand), this, w, w1, left);
        CloseSpent(o.bundle.id, w1, w);
      }
    }

    /** Older all-or-none orders of the other side that the book now suffices for are executed. */
    method MatchAonsPost(isBuy: bool, p: nat, ghost w: Job) returns (st: Status)
      requires Valid() && Kept(w) && 0 < p < |book|
      modifies `book, `cache, `timesales, `last, `totalVolume, `lastSize, `needCheck, `ledger, `lastId, `queue, `hand
      modifies `lowBuyAon, `highBuyAon, `lowSellAon, `highSellAon, `lowBuyStop, `highBuyStop, `lowSellStop,
        `highSellStop
      modifies `bid, `ask, `lowBuyLimit, `highSellLimit
      ensures var r := PostOf(old(F()), isBuy, p, base);
        && st == (if r.fault then Fault else Done)
        && (st.Done? ==> F() == r.f)
      ensures st.Done? ==> Valid() && Kept(w) && Pending() == old(Pending()) && |book| == |old(book)|
    {
      hide Sound, Kept, StopIds, PostPass, StopsPriced, QueuePriced, Standing, Separate, Overlapped, Pending, ButFor,
        Leveled;
      hide Looked, Executed, Match, NearAons;
      var os := Overlapping(!isBuy, p);
      OverlapsSorted(this, !isBuy, p);
      ghost var r := PostPass(F(), isBuy, os, base);
      var i := |os|;
      st := Done;
      assert os[..i] == os;
      while i > 0
        invariant i <= |os| && Valid() && Kept(w)
        invariant Standing(book, !isBuy, os[..i]) && Separate(os[..i]) && Leveled(|book|, os[..i])
        invariant PostPass(F(), isBuy, os[..i], base) == r
        invariant Pending() == old(Pending()) && |book| == |old(book)|
        invariant st.Done?
        decreases i
      {
        assert os[..i][..i - 1] == os[..i - 1] && os[..i][i - 1] == os[i - 1];
        var o := os[i - 1];
        LastStanding(this, !isBuy, os[..i]);
        PostStep(F(), isBuy, os[..i], base);
        ghost var book0, tried := book, Looked(F(), isBuy, o.level, o.bundle.sz) == 0;
        st := RetryAon(isBuy, o, w);
        if !st.Done? {
          return;
        }
        if tried {
          StillStanding(book0, book, !isBuy, os[..i]);
        }
        i := i - 1;
      }
      PostEnd(F(), isBuy, os[..i], base);
    }

    predicate CoreTradable(bids: bool, p: nat)
      reads `bid, `ask, `highBuyAon, `lowSellAon
    {
      OnSide(bids, p, Begin(bids))
    }

    /** A new order crosses the book if it can; an all-or-none order looks ahead first. */
    method CrossBook(isBuy: bool, p: nat, id: nat, rmndr0: nat, aon: bool, ghost w: Job) returns (st: Status,
            rmndr: nat)
      requires 0 < p < |book| && Steady(w, rmndr0) && rmndr0 > 0 && w.id == id && w.isBuy == isBuy
      modifies `book, `cache, `timesales, `last, `totalVolume, `lastSize, `needCheck, `ledger, `lastId, `queue, `hand
      modifies `lowBuyAon, `highBuyAon, `lowSellAon, `highSellAon, `lowBuyStop, `highBuyStop, `lowSellStop,
        `highSellStop
      modifies `bid, `ask, `lowBuyLimit, `highSellLimit
      ensures var r := Crossed(old(F()), isBuy, p, id, rmndr0, aon, base);
        && st == (if r.fault then Fault else Done)
        && (st.Done? ==> F() == r.f && rmndr == r.left)
      ensures st.Done? ==>
        && Steady(w, rmndr) && Pending() == old(Pending()) && |book| == |old(book)|
        && (aon ==> rmndr == 0 || rmndr == rmndr0)
      ensures st.Done? && rmndr > 0 && !aon ==> !OnSide(!isBuy, p, Best(!isBuy))
    {
      hide Sound, Engaged, StopIds, Sent, Looked, Match, StopsPriced, QueuePriced, Pending, SameChains, Tradable,
        NearAons;
      st, rmndr := Done, rmndr0;
      TradableIff(this, !isBuy, p);
      LookedSent(F(), !isBuy, p, id, rmndr0, base);
      if CoreTradable(!isBuy, p) {
        var go := true;
        if aon {
          var tot;
          go, tot := LimitIsFillable(isBuy, p, rmndr, false);
        }
        if go {
          st, rmndr := Trade(!isBuy, p, id, rmndr, w);
        }
      }
    }

    /** A new order, with rmndr left, is the order of the job, of the given terms. */
    ghost predicate Due(w: Job, id: nat, isBuy: bool, sz: nat, aon: bool)
    {
      w.id == id && w.isBuy == isBuy && id in w.work && id in w.ledger && w.ledger[id].aon == aon
        && w.ledger[id].size == sz
    }

    /** A limit order of the other side rests at p or better. */
    ghost predicate Opposed(isBuy: bool, p: nat)
      reads `book, `ledger
    {
      exists q, b :: 0 < q < |book| && InsideOf(!isBuy, q, p) && b in book[q].limits && b.id in ledger
        && ledger[b.id].isBuy != isBuy
    }

    /** What is left of a new order rests: in an AON chain if and only if it is all-or-none and opposed,
        or would be first on its limit chain; and behind all orders of its side at its level. */
    method RestOrder(isBuy: bool, p: nat, id: nat, rmndr: nat, aon: bool, ghost sz: nat, ghost w: Job)
      requires 0 < p < |book| && Steady(w, rmndr) && rmndr > 0 && Due(w, id, isBuy, sz, aon) && (aon ==> rmndr == sz)
      requires !aon ==> !OnSide(!isBuy, p, Best(!isBuy))
      modifies `book, `cache, `hand, `bid, `ask, `lowBuyLimit, `highSellLimit, `lowBuyAon, `highBuyAon, `lowSellAon,
        `highSellAon
      ensures Valid() && Kept(Off(w)) && Pending() == old(Pending()) && |book| == |old(book)| && id in cache
      ensures F() == Rested(old(F()), isBuy, p, id, rmndr, aon)
      ensures cache == old(cache)[id := Place(
        if aon && (old(Opposed(isBuy, p)) || old(book)[p].limits == []) then AonKind(isBuy) else Limits, p)]
      ensures Arrivals.Waiting(F(), isBuy, p) == Arrivals.Waiting(old(F()), isBuy, p) + [id]
    {
      hide Valid, Steady, Kept, StopIds, Pushed, Ready, Carried, InWork, LimitRested, Opposed, Arrivals.Waiting;
      var b := Resting(id, rmndr, aon);
      OpposedIff(this, w, rmndr, isBuy, p);
      Arrivals.RestsLast(F(), isBuy, p, id, rmndr, aon);
      RestsFor(this, w, isBuy, sz, rmndr, aon);
      OffWork(this, w, rmndr);
      if aon && (OnSide(!isBuy, p, Best(!isBuy)) || book[p].limits == []) {
        ReadyToRest(this, w, isBuy, sz, rmndr, aon, AonKind(isBuy));
        PushAon(isBuy, p, b);
      } else {
        ReadyToRest(this, w, isBuy, sz, rmndr, aon, Limits);
        PushLimit(isBuy, p, b);
      }
      OffKept(this, w);
    }

    /** A new order that was filled is done. */
    method FinishOrder(id: nat, ghost w: Job)
      requires Steady(w, 0) && w.id == id && id in w.work
      modifies `hand
      ensures Valid() && Kept(Off(w)) && id in ledger && Open(ledger[id]) == 0 && F() == old(F())
    {
      hide Covered, StopIds, StopsPriced, QueuePriced, Stats, Ok, Carried;
      OffWork(this, w, 0);
      SettleOk(D(), id);
      hand := hand - {id};
    }

    /** What was filled of a limit order that has been dealt with: all that does not rest. */
    method FilledOf(id: nat, sz: nat) returns (filled: int)
      requires Valid()
      ensures filled == sz - if id in cache && id in ledger then Open(ledger[id]) else 0
    {
      hide Covered, StopsPriced, QueuePriced, Stats, Named, Unique, Sided, Queued, Posted, IndexOf;
      filled := sz;
      if id in cache {
        InPlace(D(), id);
        var b := BundleOf(book, cache, id);
        AonTallies(D(), cache[id].level, cache[id].kind, b);
        filled := sz - b.sz;
      }
    }

    /** What is left of a new order after the overlapping all-or-none orders crosses the book and rests. */
    method EnterBook(isBuy: bool, p: nat, id: nat, rmndr0: nat, aon: bool, ghost sz: nat,
            ghost w: Job) returns (st: Status)
      requires 0 < p < |book| && Steady(w, rmndr0) && rmndr0 > 0 && Due(w, id, isBuy, sz, aon) && (aon ==> rmndr0 == sz)
      modifies `book, `cache, `timesales, `last, `totalVolume, `lastSize, `needCheck, `ledger, `lastId, `queue, `hand
      modifies `lowBuyAon, `highBuyAon, `lowSellAon, `highSellAon, `lowBuyStop, `highBuyStop, `lowSellStop,
        `highSellStop
      modifies `bid, `ask, `lowBuyLimit, `highSellLimit
      ensures var r := EnterPass(old(F()), isBuy, p, id, rmndr0, aon, base);
        && st == (if r.fault then Fault else Done)
        && (st.Done? ==> F() == r.f)
      ensures st.Done? ==> Valid() && Kept(Off(w)) && Pending() == old(Pending()) && |book| == |old(book)|
    {
      hide Sound, Engaged, Stats, StopIds, StopsPriced, QueuePriced, Holding, Kept, Pending, PostOf, Crossed, Rested,
        NearAons, Opposed, Arrivals.Waiting, Carried, InWork;
      var rmndr;
      st, rmndr := CrossBook(isBuy, p, id, rmndr0, aon, w);
      if !st.Done? {
        return;
      }
      if rmndr == 0 {
        FinishOrder(id, w);
        return;
      }
      RestOrder(isBuy, p, id, rmndr, aon, sz, w);
      st := MatchAonsPost(isBuy, p, Off(w));
    }

    /** A limit order enters: what the book then holds, the trades and the stops they trigger are
        those of the reference, and the result says what does not rest any more. */
    method InsertLimit(isBuy: bool, p: nat, id: nat, sz: nat, aon: bool, ghost w: Job) returns (st: Status, filled: int)
      requires 0 < p < |book| && Steady(w, sz) && sz > 0 && Due(w, id, isBuy, sz, aon)
      modifies `book, `cache, `timesales, `last, `totalVolume, `lastSize, `needCheck, `ledger, `lastId, `queue, `hand
      modifies `lowBuyAon, `highBuyAon, `lowSellAon, `highSellAon, `lowBuyStop, `highBuyStop, `lowSellStop,
        `highSellStop
      modifies `bid, `ask, `lowBuyLimit, `highSellLimit
      ensures var r := LimitPass(old(F()), isBuy, p, id, sz, aon, base);
        && st == (if r.fault then Fault else Done)
        && (st.Done? ==> F() == r.f)
      ensures st.Done? ==> Valid() && Kept(Off(w)) && Pending() == old(Pending()) && |book| == |old(book)|
      ensures st.Done? ==> filled == sz - if id in cache && id in ledger then Open(ledger[id]) else 0
    {
      hide Sound, Engaged, Stats, StopIds, StopsPriced, QueuePriced, Kept, Pending, Overlapped, Holding, NearAons;
      hide PreOf, EnterPass;
      filled := sz;
      var rmndr;
      st, rmndr := MatchAonsPre(isBuy, p, id, sz, aon, w);
      if !st.Done? {
        return;
      }
      if rmndr == 0 {
        FinishOrder(id, w);
      } else {
        st := EnterBook(isBuy, p, id, rmndr, aon, sz, w);
        if !st.Done? {
          return;
        }
      }
      filled := FilledOf(id, sz);
    }

    /** What is still open of the order at work is given up. */
    method DropOrder(id: nat, ghost size: nat, ghost w: Job)
      requires Steady(w, size) && w.id == id && id in w.work && id !in w.keep && id in ledger && Whole(ledger[id])
        && Open(ledger[id]) >= 0
      modifies `hand, `ledger
      ensures Valid() && Kept(Off(w)) && D() == Release(old(D()), id) && F() == old(F())
    {
      hide Valid, Steady, Kept, Carried, InWork, Holding;
      OffWork(this, w, size);
      InHand(this, w, size);
      CarryDrop(w.ledger, ledger, w.keep, id);
      Cancel(id);
      OffKept(this, w);
    }

    /** A market order enters; it throws if the book does not suffice. */
    method InsertMarket(isBuy: bool, id: nat, sz: nat, ghost w: Job) returns (st: Status)
      requires Steady(w, sz) && sz > 0 && Due(w, id, isBuy, sz, false)
      modifies `book, `cache, `timesales, `last, `totalVolume, `lastSize, `needCheck, `ledger, `lastId, `queue, `hand
      modifies `lowBuyAon, `highBuyAon, `lowSellAon, `highSellAon, `lowBuyStop, `highBuyStop, `lowSellStop,
        `highSellStop
      modifies `bid, `ask, `lowBuyLimit, `highSellLimit
      ensures |old(book)| > 1
      ensures var r := MarketPass(old(F()), isBuy, id, sz, base);
        && st == (if r.fault then Fault else if r.left > 0 then Liquidity(sz, r.left, id) else Done)
        && (!st.Fault? ==> F() == r.f)
      ensures !st.Fault? ==> Valid() && Kept(Off(w)) && |book| == |old(book)|
      ensures st.Done? ==> Pending() == old(Pending())
    {
      hide Sound, Engaged, Stats, StopIds, StopsPriced, QueuePriced, Kept, Pending, Overlapped, Holding, Ok, NearAons;
      hide PreOf, Sent;
      Roomy(this);
      var p := Outermost(isBuy, |book|);
      var rmndr;
      st, rmndr := MatchAonsPre(isBuy, p, id, sz, false, w);
      if !st.Done? {
        return;
      }
      if rmndr > 0 {
        st, rmndr := Trade(!isBuy, p, id, rmndr, w);
        if !st.Done? {
          return;
        }
      }
      if rmndr > 0 {
        MayDrop(this, w, isBuy, sz, false, rmndr);
        DropOrder(id, rmndr, w);
        return Liquidity(sz, rmndr, id);
      }
      FinishOrder(id, w);
    }

    /** A fill-or-kill order enters if the book can fill it, or part of it; else it is killed. */
    method InsertFok(isBuy: bool, p: nat, id: nat, sz: nat, partialOk: bool, ghost w: Job) returns (st: Status,
            killed: bool)
      requires 0 < p < |book| && Steady(w, sz) && sz > 0 && Due(w, id, isBuy, sz, false)
      modifies `book, `cache, `timesales, `last, `totalVolume, `lastSize, `needCheck, `ledger, `lastId, `queue, `hand
      modifies `lowBuyAon, `highBuyAon, `lowSellAon, `highSellAon, `lowBuyStop, `highBuyStop, `lowSellStop,
        `highSellStop
      modifies `bid, `ask, `lowBuyLimit, `highSellLimit
      ensures killed <==> Killed(old(F()), isBuy, p, sz, partialOk)
      ensures |old(book)| > 1
      ensures var left := Match(old(book), !isBuy, old(Best(!isBuy)), Outermost(!isBuy, |old(book)|), p, sz).left;
        killed <==> if partialOk then left == sz else left > 0
      ensures killed ==> id in old(ledger) && Open(old(ledger)[id]) >= 0
      ensures killed ==> st.Done? && Snap() == old(Snap()).(d := Release(old(D()), id)) && F() == old(F())
      ensures !killed ==>
        var r := LimitPass(old(F()), isBuy, p, id, sz, false, base);
        && st == (if r.fault then Fault else Done)
        && (st.Done? ==> F() == r.f)
      ensures st.Done? ==> Valid() && Kept(Off(w)) && Pending() == old(Pending()) && |book| == |old(book)|
    {
      hide Sound, Engaged, Stats, StopIds, StopsPriced, QueuePriced, Kept, Holding, Ok, Match, LimitPass, Looked,
        NearAons;
      Roomy(this);
      MatchLeft(book, book, !isBuy, Best(!isBuy), Outermost(!isBuy, |book|), p, sz);
      LookedIs(this, !isBuy, p, sz);
      var fillable, tot := LimitIsFillable(isBuy, p, sz, partialOk);
      killed, st := !fillable, Done;
      if killed {
        MayDrop(this, w, isBuy, sz, false, sz);
        DropOrder(id, sz, w);
      } else {
        var filled;
        st, filled := InsertLimit(isBuy, p, id, sz, false, w);
      }
    }

    /** A stop order goes to its chain; it is not triggered before the next trade. */
    method InsertStop(isBuy: bool, p: nat, limit: nat, id: nat, sz: nat, ghost w: Job)
      requires 0 < p < |book| && Steady(w, sz) && sz > 0 && Due(w, id, isBuy, sz, false)
        && PricedIn(limit, base, |book|)
      modifies `book, `cache, `hand, `lowBuyStop, `highBuyStop, `lowSellStop, `highSellStop
      ensures Valid() && Kept(Off(w)) && F() == StopRested(old(F()), p, Stop(id, sz, isBuy, limit))
      ensures cache == old(cache)[id := Place(Stops, p)] && Pending() == old(Pending()) + 1
      ensures book == old(book)[p := old(book[p]).(stops := old(book[p]).stops + [Stop(id, sz, isBuy, limit)])]
      ensures lowBuyStop == (if isBuy && p < old(lowBuyStop) then p else old(lowBuyStop))
        && highBuyStop == (if isBuy && p > old(highBuyStop) then p else old(highBuyStop))
      ensures lowSellStop == (if !isBuy && p < old(lowSellStop) then p else old(lowSellStop))
        && highSellStop == (if !isBuy && p > old(highSellStop) then p else old(highSellStop))
    {
      hide Sound, Stats, StopIds, StopsPriced, QueuePriced, Ready, Holding, Carried, InWork, Ok, NearAons;
      OffWork(this, w, sz);
      StopReady(this, w, isBuy, limit, sz);
      StopsMore(cache, id, Place(Stops, p));
      NotCached(this, w, sz);
      PushStop(p, Stop(id, sz, isBuy, limit));
    }

    /** An order taken out of the book is given up. */
    method Cancel(id: nat)
      requires Valid() && id in hand && id in ledger && Whole(ledger[id]) && Open(ledger[id]) >= 0 && forall t ::
        t in queue ==> t.id != id
      modifies `hand, `ledger
      ensures Valid() && D() == Release(old(D()), id) && F() == old(F())
    {
      hide Covered, StopIds, StopsPriced, QueuePriced, Stats, Ok;
      ReleaseOk(D(), id);
      ghost var a := ledger[id];
      ledger := ledger[id := a.(released := a.released + Open(a))];
      hand := hand - {id};
    }

    /** A cached order is taken out of its chain. Not ok: an all-or-none sell stepped aside. */
    method PopOrder(id: nat) returns (ok: bool)
      requires Valid() && id in cache
      modifies `book, `cache, `hand, `bid, `ask, `lowBuyLimit, `highSellLimit
      modifies `lowBuyAon, `highBuyAon, `lowSellAon, `highSellAon, `lowBuyStop, `highBuyStop, `lowSellStop,
        `highSellStop
      ensures Located(old(book), old(cache), id) && (ok <==> !PullFaults(old(book), old(cache), old(ask), id))
      ensures ok ==> Valid() && hand == old(hand) + {id} && id !in cache && F() == PulledFloor(old(F()), old(cache), id)
      ensures ok ==> |StopIds(cache)| <= old(|StopIds(cache)|)
    {
      hide Valid, StopIds, FrontAons, Cut, BundleOf, LimitsHit, Outward, StopGone, PulledFloor, Located;
      ok := true;
      var b;
      RestsInPlace(this, id);
      PulledKinds(F(), cache, id);
      match cache[id].kind {
        case Limits =>
          ghost var bid0, ask0 := bid, ask;
          ValidGap(this);
          b, ok := PopLimit(id);
          if ok {
            ValidGap(this);
            InsideIs(this, bid0, ask0);
          }
        case Stops =>
          StopsLess(cache, id);
          b := PopStop(id);
        case _ => b := PopAon(id);
      }
    }

    /** A resting order is taken out of the book, if there is one of that id. */
    method PullOrder(id: nat) returns (st: Status, found: bool)
      requires Valid()
      modifies `book, `cache, `hand, `ledger, `bid, `ask, `lowBuyLimit, `highSellLimit
      modifies `lowBuyAon, `highBuyAon, `lowSellAon, `highSellAon, `lowBuyStop, `highBuyStop, `lowSellStop,
        `highSellStop
      ensures found <==> id in old(cache)
      ensures !found ==> st.Done? && Snap() == old(Snap()) && F() == old(F())
      ensures found ==> Located(old(book), old(cache), id)
      ensures found ==>
        && st == (if PullFaults(old(book), old(cache), old(ask), id) then Fault else Done)
        && (st.Done? ==> F() == PulledFloor(old(F()), old(cache), id))
      ensures st.Done? ==> Valid() && hand == old(hand) && id !in cache && |StopIds(cache)| <= old(|StopIds(cache)|)
      ensures st.Done? && found ==>
        && id in old(ledger) && Open(old(ledger)[id]) >= 0 && ledger == Release(old(D()), id).ledger
    {
      hide Valid, Ok, StopIds, Located, PullFaults, PulledFloor, Snap;
      st, found := Done, id in cache;
      if found {
        WasResting(this, id);
        var ok := PopOrder(id);
        if !ok {
          return Fault, true;
        }
        Cancel(id);
        assert old(hand) + {id} - {id} == old(hand);
      }
    }

    function Ptoi(price: nat): int
      reads `base
    {
      LevelOf(price, base)
    }

    predicate IsValidPrice(price: nat)
      reads `base, `book
    {
      InBook(price, base, |book|)
    }

    /** What the interface and the queue element constructor check of a new order. */
    predicate Accepts(t: Ticket)
      reads `base, `book
    {
      Acceptable(t, base, |book|)
    }

    /** A new order is routed by its condition and type. */
    method InsertOrder(t: Ticket, ghost w: Job) returns (st: Status)
      requires Steady(w, t.sz) && Due(w, t.id, t.isBuy, t.sz, t.cond.AllOrNone?) && Accepts(t)
      modifies `book, `cache, `timesales, `last, `totalVolume, `lastSize, `needCheck, `ledger, `lastId, `queue, `hand
      modifies `lowBuyAon, `highBuyAon, `lowSellAon, `highSellAon, `lowBuyStop, `highBuyStop, `lowSellStop,
        `highSellStop
      modifies `bid, `ask, `lowBuyLimit, `highSellLimit
      ensures |old(book)| > 1
      ensures var r := Entered(old(F()), t, base);
        && st == (if r.fault then Fault else if r.left > 0 then Liquidity(t.sz, r.left, t.id) else Done)
        && (!st.Fault? ==> F() == r.f)
      ensures !st.Fault? ==> Valid() && Kept(Off(w)) && |book| == |old(book)|
      ensures st.Done? ==> Pending() == old(Pending()) + if t.otype.Market? || t.otype.LimitOrder? then 0 else 1
      ensures t.otype.StopOrder? || t.otype.StopLimit? ==>
        var p := t.stop - base + 1;
        var b := Stop(t.id, t.sz, t.isBuy, if t.otype.StopLimit? then t.limit else 0);
        0 < p < |old(book)| && st.Done? && book == old(book)[p := old(book)[p].(stops := old(book)[p].stops + [b])]
    {
      hide Sound, Engaged, Stats, Ok, StopsPriced, QueuePriced, Pending, Kept, LimitPass, MarketPass, StopIds, Looked,
        Pushed, NearAons, StopRested, Match, Carried, InWork, Holding, Covered;
      Roomy(this);
      st := Done;
      match t.otype {
        case Market => st := InsertMarket(t.isBuy, t.id, t.sz, w);
        case LimitOrder =>
          if t.cond.FillOrKill? {
            var killed;
            st, killed := InsertFok(t.isBuy, Ptoi(t.limit), t.id, t.sz, t.cond.partialOk, w);
          } else {
            var filled;
            st, filled := InsertLimit(t.isBuy, Ptoi(t.limit), t.id, t.sz, t.cond.AllOrNone?, w);
          }
        case StopOrder =>
          InsertStop(t.isBuy, Ptoi(t.stop), 0, t.id, t.sz, w);
        case StopLimit =>
          InsertStop(t.isBuy, Ptoi(t.stop), t.limit, t.id, t.sz, w);
      }
    }

    /** What holds between execution windows. */
    ghost predicate Idle()
      reads `book, `bid, `ask, `cache, `queue, `lastId, `ledger, `hand, `timesales
      reads `lowBuyLimit, `highSellLimit, `lowBuyAon, `highBuyAon, `lowSellAon, `highSellAon
      reads `lowBuyStop, `highBuyStop, `lowSellStop, `highSellStop
      reads `totalVolume, `last, `lastSize, `needCheck, `base
    {
      Valid() && queue == [] && hand == {}
    }

    /** A new order is given an id. */
    method NewOrder(isBuy: bool, sz: nat, aon: bool) returns (id: nat, ghost w: Job)
      requires Idle()
      modifies `lastId, `ledger, `hand
      ensures Steady(w, sz) && Due(w, id, isBuy, sz, aon) && w.work == {id} && id !in old(ledger) && id > 0
      ensures w.ledger == old(ledger)[id := Account(isBuy, aon, sz, 0, 0)] && id == old(lastId) + 1
        && F() == old(F()).(lastId := id)
    {
      hide Covered, StopsPriced, QueuePriced, Stats, Ok, AtWork, StopIds;
      AcceptAtWork(D(), Account(isBuy, aon, sz, 0, 0), needCheck);
      id := NumberOrder(Account(isBuy, aon, sz, 0, 0));
      w := JobFor(D(), id, isBuy);
    }

    /** The next id is used up. */
    method NumberOrder(ghost a: Account) returns (id: nat)
      modifies `lastId, `ledger, `hand
      ensures D() == Accept(old(D()), a) && F() == old(F()).(lastId := id) && id == old(lastId) + 1
    {
      lastId := lastId + 1;
      id := lastId;
      ledger := ledger[id := a];
      hand := hand + {id};
    }

    /** The front of the queue is taken up. */
    method Dequeue() returns (t: Ticket, ghost w: Job)
      requires Valid() && InWork(queue, hand, {}) && queue != []
      modifies `queue
      ensures Steady(w, t.sz) && Due(w, t.id, t.isBuy, t.sz, t.cond.AllOrNone?) && w.work == {t.id}
        && w.ledger == ledger
      ensures Accepts(t) && t.cond.Plain? && (t.otype.Market? || t.otype.LimitOrder?) && Pending() == old(Pending()) - 1
      ensures old(queue) != [] && t == old(queue)[0] && F() == old(F()).(queue := old(queue)[1..])
    {
      hide Covered, StopIds, StopsPriced, Stats, Ok, NearAons;
      DequeueOk(D());
      t := queue[0];
      w := Job(t.id, t.isBuy, ledger, hand - {t.id}, {}, false, 0, {t.id});
      DequeueWork(queue, hand);
      assert t in queue;
      queue := queue[1..];
    }

    /** The internal orders of a window: each entry uses up one of those pending. n is any bound
        on how many will enter. */
    method RunQueue(ghost n: nat) returns (st: Status)
      requires Valid() && InWork(queue, hand, {}) && n >= Pending()
      modifies `book, `cache, `timesales, `last, `totalVolume, `lastSize, `needCheck, `ledger, `lastId, `queue, `hand
      modifies `lowBuyAon, `highBuyAon, `lowSellAon, `highSellAon, `lowBuyStop, `highBuyStop, `lowSellStop,
        `highSellStop
      modifies `bid, `ask, `lowBuyLimit, `highSellLimit
      ensures |old(book)| > 1
      ensures var r := Drained(old(F()), base, n); Ends(st, r) && (!st.Fault? ==> F() == r.f)
      ensures !st.Fault? ==> Idle() && |book| == |old(book)| && Carried(old(ledger), ledger, {})
      ensures PlainBook(old(book)) && !old(needCheck) ==> !st.Fault? && PlainBook(book) && !needCheck
    {
      hide Sound, Stats, Ok, StopsPriced, QueuePriced, Pending, StopIds, Steady, InWork, Carried, Entered, Acceptable,
        PlainBook, NearAons;
      st := Done;
      CarryAll(ledger);
      Roomy(this);
      ghost var m := n;
      while queue != []
        invariant Valid() && InWork(queue, hand, {}) && |book| == |old(book)| && Carried(old(ledger), ledger, {})
          && st.Done?
        invariant m >= Pending() && Drained(F(), base, m) == Drained(old(F()), base, n)
        invariant PlainBook(old(book)) && !old(needCheck) ==> PlainBook(book) && !needCheck
        decreases Pending()
      {
        ghost var ledger0, f0 := ledger, F();
        var t, w := Dequeue();
        DrainStep(f0, base, m);
        if PlainBook(old(book)) && !old(needCheck) {
          EnteredPlain(F(), t, base);
        }
        st := InsertOrder(t, w);
        if st.Fault? {
          return;
        }
        CarryOn(old(ledger), ledger0, this, w);
        if !st.Done? {
          ghost var ledger1 := ledger;
          ClearQueue();
          CarryTrans(old(ledger), ledger1, ledger);
          return;
        }
        m := m - 1;
      }
      NothingQueued(queue, hand);
    }

    /** An exception drops the orders still queued. */
    method ClearQueue()
      requires Valid() && InWork(queue, hand, {})
      modifies `queue, `hand, `ledger
      ensures Idle() && Carried(old(ledger), ledger, {}) && F() == old(F()).(queue := [])
    {
      hide Valid, Carried, InWork;
      CarryAll(ledger);
      while queue != []
        invariant Valid() && InWork(queue, hand, {}) && Carried(old(ledger), ledger, {})
        decreases |queue|
      {
        ghost var ledger0 := ledger;
        DropFront();
        CarryTrans(old(ledger), ledger0, ledger);
      }
      NothingQueued(queue, hand);
    }

    method DropFront()
      requires Valid() && InWork(queue, hand, {}) && queue != []
      modifies `queue, `hand, `ledger
      ensures Valid() && InWork(queue, hand, {}) && Carried(old(ledger), ledger, {}) && queue == old(queue)[1..]
    {
      hide Covered, StopsPriced, QueuePriced, Stats, Ok, Carried, InWork, NearAons;
      PricedRest(queue, base, |book|);
      DropOk(D());
      ReleaseFront();
    }

    /** The front order of the queue is forgotten, its size released. */
    method ReleaseFront()
      requires queue != [] && queue[0].id in ledger && Open(ledger[queue[0].id]) >= 0
      modifies `queue, `hand, `ledger
      ensures D() == Release(old(D()).(queue := old(queue)[1..]), old(queue)[0].id)
    {
      ghost var id := queue[0].id;
      queue := queue[1..];
      ledger := ledger[id := ledger[id].(released := ledger[id].released + Open(ledger[id]))];
      hand := hand - {id};
    }

    /** One execution window: an external request and every order it gives rise to. What it leaves
        is a function of what there was, whatever the bound n on how many orders it may enter. */
    method Execute(req: Request, ghost n: nat) returns (st: Status, ret: nat)
      requires Idle() && n > |StopIds(cache)|
      modifies `book, `cache, `timesales, `last, `totalVolume, `lastSize, `needCheck, `ledger, `lastId, `queue, `hand
      modifies `lowBuyAon, `highBuyAon, `lowSellAon, `highSellAon, `lowBuyStop, `highBuyStop, `lowSellStop,
        `highSellStop
      modifies `bid, `ask, `lowBuyLimit, `highSellLimit
      ensures |old(book)| > 1
      ensures st.Done? || st.Fault? || st.Liquidity? || st.Rejected?
      ensures !st.Fault? ==> Idle() && |book| == |old(book)| && Carried(old(ledger), ledger, {})
      ensures st.Rejected? <==> !req.Withdraw? && !old(Accepts(req.t))
      ensures !req.Withdraw? ==>
        var t, end := req.t, old(base) + |old(book)| - 1;
        var offLimit := (t.otype.LimitOrder? || t.otype.StopLimit?) && !(old(base) <= t.limit < end);
        var offStop := (t.otype.StopOrder? || t.otype.StopLimit?) && !(old(base) <= t.stop < end);
        st.Rejected? <==> t.sz == 0 || (!t.cond.Plain? && !t.otype.LimitOrder?) || offLimit || offStop
      ensures st.Rejected? ==> Snap() == old(Snap()) && F() == old(F())
      ensures !st.Rejected? && req.Enter? ==>
        var r := Windowed(old(F()), req.t, base, n);
        && Ends(st, r) && (!st.Fault? ==> F() == r.f && ret == old(lastId) + 1 && Placed(old(ledger), req.t, ret))
      ensures !st.Rejected? && !req.Enter? && req.id !in old(cache) ==>
        st.Done? && ret == 0 && F() == old(F()) && Snap() == old(Snap())
      ensures !st.Rejected? && !req.Enter? && req.id in old(cache) ==>
        && (if req.Withdraw? then PulledTo(old(F()), old(cache), req.id, st, F())
            else ReplacedTo(old(F()), old(cache), req.id, req.t, base, n, st, F()))
        && (!st.Fault? && req.Withdraw? ==> ret == 1 && req.id !in cache)
        && (!st.Fault? && req.ReplaceBy? ==>
          ret == old(lastId) + 1 && Placed(old(ledger), req.t, ret) && req.id !in cache)
      ensures PlainBook(old(book)) && !old(needCheck) && (req.Withdraw? || !req.t.cond.AllOrNone?) ==>
        !st.Fault? && PlainBook(book) && !needCheck
    {
      hide Sound, Stats, Ok, StopsPriced, QueuePriced, NearAons, Carried, PulledFloor, PullFaults, Located, Windowed,
        Acceptable, PlainBook, StopIds;
      Roomy(this);
      ret := 0;
      if !req.Withdraw? {
        AcceptableIff(req.t, base, |book|);
      }
      if !req.Withdraw? && !Accepts(req.t) {
        CarryAll(ledger);
        return Rejected, 0;
      }
      match req {
        case Enter(t) => st, ret := EnterOrder(t, n);
        case ReplaceBy(id, t) => st, ret := ReplaceOrder(id, t, n);
        case Withdraw(id) =>
          var found;
          st, found := WithdrawOrder(id);
          ret := if found then 1 else 0;
      }
    }

    /** A resting order is pulled, and given up. */
    method WithdrawOrder(id: nat) returns (st: Status, found: bool)
      requires Idle()
      modifies `book, `cache, `hand, `ledger, `bid, `ask, `lowBuyLimit, `highSellLimit
      modifies `lowBuyAon, `highBuyAon, `lowSellAon, `highSellAon, `lowBuyStop, `highBuyStop, `lowSellStop,
        `highSellStop
      ensures found <==> id in old(cache)
      ensures !found ==> st.Done? && Snap() == old(Snap()) && F() == old(F())
      ensures found ==> PulledTo(old(F()), old(cache), id, st, F())
      ensures st.Done? ==>
        && Idle() && id !in cache && |book| == |old(book)| && Carried(old(ledger), ledger, {})
        && ledger.Keys == old(ledger).Keys
      ensures st.Done? ==> |StopIds(cache)| <= old(|StopIds(cache)|)
      ensures st.Done? && found ==> id in ledger && Open(ledger[id]) <= 0
      ensures PlainBook(old(book)) ==> st.Done? && PlainBook(book)
    {
      hide Sound, Stats, Ok, StopsPriced, QueuePriced, StopIds, Carried, PullFaults, Located, PlainBook, NearAons,
        Pulled;
      CarryAll(ledger);
      if id in cache {
        RestsInPlace(this, id);
        if PlainBook(book) {
          PulledPlain(book, cache, ask, id);
        }
      }
      st, found := PullOrder(id);
      if st.Done? && found {
        CarryRelease(old(ledger), id);
      }
    }

    /** A resting order is pulled and a new one entered, if it was there. */
    method ReplaceOrder(id: nat, t: Ticket, ghost n: nat) returns (st: Status, ret: nat)
      requires Idle() && Accepts(t) && n > |StopIds(cache)|
      modifies `book, `cache, `timesales, `last, `totalVolume, `lastSize, `needCheck, `ledger, `lastId, `queue, `hand
      modifies `lowBuyAon, `highBuyAon, `lowSellAon, `highSellAon, `lowBuyStop, `highBuyStop, `lowSellStop,
        `highSellStop
      modifies `bid, `ask, `lowBuyLimit, `highSellLimit
      ensures |old(book)| > 1 && (st.Done? || st.Fault? || st.Liquidity?)
      ensures !st.Fault? ==> Idle() && |book| == |old(book)| && Carried(old(ledger), ledger, {})
      ensures id !in old(cache) ==> st.Done? && ret == 0 && F() == old(F()) && Snap() == old(Snap())
      ensures id in old(cache) ==>
        && ReplacedTo(old(F()), old(cache), id, t, base, n, st, F())
        && (!st.Fault? ==> ret == old(lastId) + 1 && Placed(old(ledger), t, ret) && id !in cache)
      ensures PlainBook(old(book)) && !old(needCheck) && !t.cond.AllOrNone? ==>
        !st.Fault? && PlainBook(book) && !needCheck
    {
      hide Sound, Stats, Ok, StopsPriced, QueuePriced, StopIds, Carried, PulledFloor, PullFaults, Located, Windowed,
        Acceptable, PlainBook, NearAons;
      ret := 0;
      Roomy(this);
      var found;
      st, found := WithdrawOrder(id);
      if st.Done? && found {
        ghost var ledger0 := ledger;
        PulledSame(old(F()), old(cache), id);
        st, ret := EnterOrder(t, n);
        if !st.Fault? {
          CarryTrans(old(ledger), ledger0, ledger);
          CarriedTerms(ledger0, ledger, {}, id);
          NotResting(this, id);
        }
      }
    }

    /** id is a new id, and its account has the terms of the ticket. */
    ghost predicate Placed(ledger0: map<nat, Account>, t: Ticket, id: nat)
      reads `ledger
    {
      && id !in ledger0 && id in ledger && id > 0
      && ledger[id].isBuy == t.isBuy && ledger[id].size == t.sz && ledger[id].aon == t.cond.AllOrNone?
    }

    /** A new order and every order it gives rise to. */
    method EnterOrder(t: Ticket, ghost n: nat) returns (st: Status, id: nat)
      requires Idle() && Accepts(t) && n > |StopIds(cache)|
      modifies `book, `cache, `timesales, `last, `totalVolume, `lastSize, `needCheck, `ledger, `lastId, `queue, `hand
      modifies `lowBuyAon, `highBuyAon, `lowSellAon, `highSellAon, `lowBuyStop, `highBuyStop, `lowSellStop,
        `highSellStop
      modifies `bid, `ask, `lowBuyLimit, `highSellLimit
      ensures |old(book)| > 1
      ensures var r := Windowed(old(F()), t, base, n); Ends(st, r) && (!st.Fault? ==> F() == r.f)
      ensures !st.Fault? ==>
        && Idle() && |book| == |old(book)| && Carried(old(ledger), ledger, {})
        && Placed(old(ledger), t, id) && id == old(lastId) + 1
      ensures PlainBook(old(book)) && !old(needCheck) && !t.cond.AllOrNone? ==>
        !st.Fault? && PlainBook(book) && !needCheck
    {
      hide Sound, Stats, Ok, StopsPriced, QueuePriced, StopIds, Steady, InWork, Carried, Entered, Drained, Acceptable,
        PlainBook, NearAons;
      ghost var w;
      Roomy(this);
      id, w := NewOrder(t.isBuy, t.sz, t.cond.AllOrNone?);
      CarryNew(old(ledger), id, w.ledger);
      Renamed(t, id, base, |book|);
      if PlainBook(book) && !needCheck && !t.cond.AllOrNone? {
        EnteredPlain(F(), t.(id := id), base);
      }
      st := InsertOrder(t.(id := id), w);
      if st.Fault? {
        return;
      }
      CarryOn(old(ledger), w.ledger, this, w);
      CarriedTerms(w.ledger, ledger, Off(w).keep, id);
      ghost var ledger1 := ledger;
      if st.Done? {
        st := RunQueue(n);
      } else {
        ClearQueue();
      }
      if !st.Fault? {
        CarryTrans(old(ledger), ledger1, ledger);
        CarriedTerms(ledger1, ledger, {}, id);
      }
    }

    /** The edges and the cache follow the levels; an edge that was reset stays reset. */
    method ResetInternalPointers(n: nat, incr: nat, off: nat)
      modifies `last, `bid, `ask, `lowBuyLimit, `highSellLimit, `lowBuyAon, `highBuyAon, `lowSellAon, `highSellAon
      modifies `lowBuyStop, `highBuyStop, `lowSellStop, `highSellStop, `cache
      ensures E() == GrownEdges(old(E()), n, incr, off) && cache == Moved(old(cache), off)
        && last == Low(old(last), off)
      ensures bid == Low(old(bid), off) && ask == High(old(ask), n, incr, off)
    {
      hide Low, High, Moved;
      last := Low(last, off);
      ResetLow(off);
      ResetHigh(n, incr, off);
      cache := Moved(cache, off);
    }

    method ResetLow(off: nat)
      modifies `bid, `highSellLimit, `highBuyAon, `highSellAon, `highBuyStop, `highSellStop
      ensures bid == Low(old(bid), off) && highSellLimit == Low(old(highSellLimit), off)
      ensures highBuyAon == Low(old(highBuyAon), off) && highSellAon == Low(old(highSellAon), off)
      ensures highBuyStop == Low(old(highBuyStop), off) && highSellStop == Low(old(highSellStop), off)
    {
      bid, highSellLimit, highBuyAon, highSellAon, highBuyStop, highSellStop := Low(bid, off), Low(highSellLimit, off),
        Low(highBuyAon, off), Low(highSellAon, off), Low(highBuyStop, off), Low(highSellStop, off);
    }

    method ResetHigh(n: nat, incr: nat, off: nat)
      modifies `ask, `lowBuyLimit, `lowBuyAon, `lowSellAon, `lowBuyStop, `lowSellStop
      ensures ask == High(old(ask), n, incr, off) && lowBuyLimit == High(old(lowBuyLimit), n, incr, off)
      ensures lowBuyAon == High(old(lowBuyAon), n, incr, off) && lowSellAon == High(old(lowSellAon), n, incr, off)
      ensures lowBuyStop == High(old(lowBuyStop), n, incr, off) && lowSellStop == High(old(lowSellStop), n, incr, off)
    {
      ask, lowBuyLimit, lowBuyAon, lowSellAon, lowBuyStop, lowSellStop := High(ask, n, incr, off),
        High(lowBuyLimit, n, incr, off),
        High(lowBuyAon, n, incr, off), High(lowSellAon, n, incr, off), High(lowBuyStop, n, incr, off),
          High(lowSellStop, n, incr, off);
    }

    /** The vector of levels is made larger. */
    method Enlarge(min: nat, incr: nat, below: bool)
      modifies `base, `book, `last, `bid, `ask, `lowBuyLimit, `highSellLimit, `lowBuyAon, `highBuyAon, `lowSellAon,
        `highSellAon
      modifies `lowBuyStop, `highBuyStop, `lowSellStop, `highSellStop, `cache
      ensures D() == GrownBooks(old(D()), incr, below)
        && E() == GrownEdges(old(E()), |old(book)|, incr, Offset(incr, below))
      ensures base == min && last == Low(old(last), Offset(incr, below))
    {
      hide Low, High, Moved, Grown, GrownEdges;
      ResetInternalPointers(|book|, incr, Offset(incr, below));
      book := Grown(book, incr, below);
      base := min;
    }

    /** The book gets incr more levels, and min as its lowest price. */
    method GrowBook(min: nat, incr: nat, below: bool)
      requires Idle() && min > 0 && min + Offset(incr, below) == base
      modifies `base, `book, `last, `bid, `ask, `lowBuyLimit, `highSellLimit, `lowBuyAon, `highBuyAon, `lowSellAon,
        `highSellAon
      modifies `lowBuyStop, `highBuyStop, `lowSellStop, `highSellStop, `cache
      ensures Idle() && base == min && book == Grown(old(book), incr, below)
        && cache == Moved(old(cache), Offset(incr, below))
      ensures E() == GrownEdges(old(E()), |old(book)|, incr, Offset(incr, below))
        && last == Low(old(last), Offset(incr, below))
    {
      hide Ok, Covered, StopsPriced, QueuePriced, Volume, Grown, Moved, High, NearAons, Taped;
      GrownTaped(timesales, last, base, min, Offset(incr, below));
      GrownOk(D(), incr, below);
      Padded(D());
      CoveredGap(book, E());
      GrownCovered(book, E(), incr, below);
      GrownPriced(book, incr, below, base);
      GrownTight(book, E(), incr, below);
      GrownNear(book, E(), incr, below);
      NonePriced(queue, min, |book| + incr);
      Enlarge(min, incr, below);
    }

    method GrowBookAbove(newMax: nat)
      requires Idle()
      modifies `base, `book, `last, `bid, `ask, `lowBuyLimit, `highSellLimit, `lowBuyAon, `highBuyAon, `lowSellAon,
        `highSellAon
      modifies `lowBuyStop, `highBuyStop, `lowSellStop, `highSellStop, `cache
      ensures Idle() && base == old(base)
      ensures forall price: nat :: IsValidPrice(price) <==> old(IsValidPrice(price)) || base <= price <= newMax
      ensures old(IsValidPrice(newMax)) || newMax < base ==> Snap() == old(Snap())
      ensures !old(IsValidPrice(newMax)) && newMax >= base ==>
        && |book| == newMax - base + 2 && |book| > |old(book)| && book == Grown(old(book), |book| - |old(book)|, false)
          && cache == Moved(old(cache), 0)
        && E() == GrownEdges(old(E()), |old(book)|, |book| - |old(book)|, 0) && last == old(last)
    {
      hide Valid, Idle, Grown, Moved, GrownEdges, Snap;
      Based(this);
      var diff := newMax - Itop(|book| - 1);
      if diff > 0 {
        GrowBook(base, diff, false);
      }
    }

    method GrowBookBelow(newMin: nat)
      requires Idle()
      modifies `base, `book, `last, `bid, `ask, `lowBuyLimit, `highSellLimit, `lowBuyAon, `highBuyAon, `lowSellAon,
        `highSellAon
      modifies `lowBuyStop, `highBuyStop, `lowSellStop, `highSellStop, `cache
      ensures Idle() && base + |book| == old(base + |book|)
      ensures forall price: nat :: IsValidPrice(price) <==>
        old(IsValidPrice(price)) || (0 < price && newMin <= price < old(base))
      ensures newMin >= old(base) || old(base) == 1 ==> base == old(base) && Snap() == old(Snap())
      ensures newMin < old(base) && old(base) > 1 ==>
        var off := old(base) - base;
        && base == (if newMin < 1 then 1 else newMin) && off > 0
        && book == Grown(old(book), off, true) && cache == Moved(old(cache), off)
        && E() == GrownEdges(old(E()), |old(book)|, off, off) && last == Low(old(last), off)
    {
      hide Valid, Idle, Grown, Moved, GrownEdges, Snap;
      Based(this);
      if base == 1 {
        return;
      }
      var newBase := if newMin < 1 then 1 else newMin;
      var diff := base - newBase;
      if diff > 0 {
        GrowBook(newBase, diff, true);
      }
    }
  }
}
