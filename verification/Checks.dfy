/** What trades mean for the stops: when something has traded those that are due have gone, and when
    nothing has they are left alone. */
module Checks {
  import opened Ladder
  import opened Matcher
  import opened Desk
  import opened Edges
  import opened Overlaps
  import opened Sweep
  import opened Reference
  import opened Faults
  import opened Stops
  import opened Kills

  ghost predicate Cover(f: Floor) {
    StopsWithin(f.book, true, f.lowBuyStop, f.highBuyStop) && StopsWithin(f.book, false, f.lowSellStop, f.highSellStop)
  }

  /** No stop rests that the last price makes due, unless a check is owed. */
  ghost predicate Clean(f: Floor) {
    f.check || forall p, b :: 0 <= p < |f.book| && b in f.book[p].stops ==> !Due(b, p, f.last)
  }

  /** Neither is a stop gone nor an order queued. */
  ghost predicate Undisturbed(f: Floor, g: Floor) {
    && |g.book| == |f.book| && (forall p :: 0 <= p < |f.book| ==> g.book[p].stops == f.book[p].stops)
    && g.queue == f.queue && g.lastId == f.lastId && g.last == f.last && g.check == f.check
  }

  /** From f to g the stops were seen to: checked if anything traded, left alone if nothing did. */
  ghost predicate SeenTo(f: Floor, g: Floor) {
    && Grows(f, g) && Cover(g) && (Clean(f) ==> Clean(g))
    && (g.tape != f.tape ==> Clean(g))
    && (g.tape == f.tape && !f.check ==> Undisturbed(f, g))
  }

  lemma SeenToSelf(f: Floor)
    requires Cover(f)
    ensures SeenTo(f, f)
  {
  }

  lemma SeenToTrans(f: Floor, g: Floor, h: Floor)
    requires SeenTo(f, g) && SeenTo(g, h)
    ensures SeenTo(f, h)
  {
    hide Cover, Clean;
    if h.tape == f.tape {
      assert |g.tape| == |f.tape| && g.tape[..|f.tape|] == g.tape && h.tape[..|g.tape|] == h.tape;
    }
    assert |f.tape| <= |h.tape| && h.tape[..|f.tape|] == h.tape[..|g.tape|][..|f.tape|];
  }

  /** Same stops and windows, and as much on the tape. */
  lemma SeenToSame(f: Floor, g: Floor)
    requires Cover(f) && Undisturbed(f, g) && g.tape == f.tape
    requires g.lowBuyStop == f.lowBuyStop && g.highBuyStop == f.highBuyStop && g.lowSellStop == f.lowSellStop
      && g.highSellStop == f.highSellStop
    ensures SeenTo(f, g)
  {
    assert forall p, buys :: 0 <= p < |f.book| ==> (HasStop(g.book[p], buys) <==> HasStop(f.book[p], buys));
    hide HasStop, Due;
  }

  lemma CheckedClean(f: Floor)
    requires Cover(f)
    ensures Cover(Checked(f)) && Clean(Checked(f))
  {
    CheckedStops(f);
    CheckedCover(f);
    forall p, b | 0 <= p < |f.book| && b in Checked(f).book[p].stops ensures !Due(b, p, f.last) {
      if Due(b, p, f.last) {
        assert b in f.book[p].stops;
        AllDueTriggered(f, p, b);
      }
    }
    hide Swept, DueStops, Tickets, Due;
  }

  lemma CheckedCover(f: Floor)
    requires Cover(f)
    ensures Cover(Checked(f))
  {
    CheckedStops(f);
    hide Swept, DueStops, Tickets;
    forall p, buys | 0 <= p < |f.book| && HasStop(Checked(f).book[p], buys)
      ensures HasStop(f.book[p], buys) && (if buys then !(f.lowBuyStop <= p <= f.last)
        else !(f.last <= p <= f.highSellStop))
    {
    }
    hide HasStop;
  }

  lemma SentSeenTo(f: Floor, bids: bool, p: nat, id: nat, size: nat, base: nat)
    requires 0 < p < |f.book| && Cover(f)
    ensures SeenTo(f, Sent(f, bids, p, id, size, base).f)
  {
    hide Match, SalesOf, Outward, Checked, Due, HasStop, LastLevel;
    var m := Match(f.book, bids, InsideLevel(f, bids), Outermost(bids, |f.book|), p, size);
    MatchFrame(f.book, bids, InsideLevel(f, bids), Outermost(bids, |f.book|), p, size);
    SalesCount(m.fills, id, base);
    SentGrows(f, bids, p, id, size, base);
    var g := Matched(f, bids, p, id, size, base).f;
    StopsLike(f.book, m.book);
    TapeLike(g);
    if g.check {
      CheckedClean(g);
    } else {
      NoFills(f.last);
    }
  }

  lemma StopsLike(book: seq<Level>, book': seq<Level>)
    requires |book| == |book'| && forall p :: 0 <= p < |book| ==> book'[p].stops == book[p].stops
    ensures forall p, buys :: 0 <= p < |book| ==> (HasStop(book'[p], buys) <==> HasStop(book[p], buys))
  {
  }

  lemma TapeLike(f: Floor)
    ensures Checked(f).tape == f.tape && !Checked(f).check && Checked(f).last == f.last
  {
    hide Swept, DueStops, Tickets;
  }

  lemma NoFills(last: nat)
    ensures LastLevel([], last) == last
  {
  }

  /* ---- all-or-none orders ---- */

  lemma PullStops(book: seq<Level>, bids: bool, o: Overlap)
    requires o.level < |book|
    ensures forall p :: 0 <= p < |book| ==> Pull(book, bids, o)[p].stops == book[p].stops
  {
    hide IndexOf, Without;
  }

  lemma ExecutedSeenTo(f: Floor, bids: bool, o: Overlap, base: nat)
    requires 0 < o.level < |f.book| && Cover(f)
    ensures SeenTo(f, Executed(f, bids, o, base).f)
  {
    hide Sent, Pull, Cover, Clean, Undisturbed, SeenTo;
    var f1 := f.(book := Pull(f.book, !bids, o));
    PulledSeenTo(f, bids, o);
    SentSeenTo(f1, bids, o.level, o.bundle.id, o.bundle.sz, base);
    SeenToTrans(f, f1, Executed(f, bids, o, base).f);
  }

  lemma PulledSeenTo(f: Floor, bids: bool, o: Overlap)
    requires 0 < o.level < |f.book| && Cover(f)
    ensures var f1 := f.(book := Pull(f.book, !bids, o)); SeenTo(f, f1) && Cover(f1)
  {
    PullStops(f.book, !bids, o);
    hide Pull, Cover, Clean;
    SeenToSame(f, f.(book := Pull(f.book, !bids, o)));
  }

  lemma ClosedSeenTo(f: Floor, p: nat, taker: nat, maker: nat, left: nat, base: nat)
    requires Cover(f)
    ensures SeenTo(f, Closed(f, p, taker, maker, left, base))
  {
    hide HasStop, Due;
  }

  lemma SeenToCover(f: Floor, g: Floor)
    requires SeenTo(f, g)
    ensures Cover(g)
  {
  }

  lemma {:induction false} PreSeenTo(f: Floor, bids: bool, os: seq<Overlap>, p: nat, id: nat, aon: bool, rmndr: nat,
          base: nat)
    requires Leveled(|f.book|, os) && Cover(f)
    ensures SeenTo(f, PrePass(f, bids, os, p, id, aon, rmndr, base).f)
    decreases |os|
  {
    hide Looked, Executed, Closed, Suffices, Leveled, Cover, SeenTo;
    if os == [] || rmndr == 0 {
      SeenToSelf(f);
    } else {
      var o := os[|os| - 1];
      var rest := os[..|os| - 1];
      LastLeveled(|f.book|, os);
      var left := Looked(f, bids, o.level, o.bundle.sz);
      if Suffices(aon, left, rmndr) {
        FitsRest(aon, left, rmndr);
        var r := Executed(f, bids, o, base);
        ExecutedSeenTo(f, bids, o, base);
        if !r.fault {
          var g := Closed(r.f, p, o.bundle.id, id, left, base);
          SeenToCover(f, r.f);
          ClosedSeenTo(r.f, p, o.bundle.id, id, left, base);
          SeenToTrans(f, r.f, g);
          SeenToCover(f, g);
          PreSeenTo(g, bids, rest, p, id, aon, rmndr - left, base);
          SeenToTrans(f, g, PrePass(f, bids, os, p, id, aon, rmndr, base).f);
        }
      } else {
        PreSeenTo(f, bids, rest, p, id, aon, rmndr, base);
      }
    }
  }

  lemma {:induction false} PostSeenTo(f: Floor, bids: bool, os: seq<Overlap>, base: nat)
    requires Leveled(|f.book|, os) && Cover(f)
    ensures SeenTo(f, PostPass(f, bids, os, base).f)
    decreases |os|
  {
    hide Looked, Executed, Leveled, Cover, SeenTo;
    if os == [] {
      SeenToSelf(f);
    } else {
      var o := os[|os| - 1];
      var rest := os[..|os| - 1];
      LastLeveled(|f.book|, os);
      if Looked(f, bids, o.level, o.bundle.sz) == 0 {
        var r := Executed(f, bids, o, base);
        ExecutedSeenTo(f, bids, o, base);
        if !r.fault {
          SeenToCover(f, r.f);
          PostSeenTo(r.f, bids, rest, base);
          SeenToTrans(f, r.f, PostPass(f, bids, os, base).f);
        }
      } else {
        PostSeenTo(f, bids, rest, base);
      }
    }
  }

  /* ---- orders enter ---- */

  lemma RestedSeenTo(f: Floor, isBuy: bool, p: nat, id: nat, sz: nat, aon: bool)
    requires 0 < p < |f.book| && Cover(f)
    ensures SeenTo(f, Rested(f, isBuy, p, id, sz, aon))
  {
    var g := Rested(f, isBuy, p, id, sz, aon);
    RestedStops(f, isBuy, p, id, sz, aon);
    hide Rested, Cover, Clean;
    SeenToSame(f, g);
  }

  lemma RestedStops(f: Floor, isBuy: bool, p: nat, id: nat, sz: nat, aon: bool)
    requires 0 < p < |f.book|
    ensures var g := Rested(f, isBuy, p, id, sz, aon);
      && Undisturbed(f, g) && g.tape == f.tape
      && g.lowBuyStop == f.lowBuyStop && g.highBuyStop == f.highBuyStop
      && g.lowSellStop == f.lowSellStop && g.highSellStop == f.highSellStop
  {
  }

  lemma CrossSeenTo(f: Floor, isBuy: bool, p: nat, id: nat, size: nat, aon: bool, base: nat)
    requires 0 < p < |f.book| && Cover(f)
    ensures SeenTo(f, Crossed(f, isBuy, p, id, size, aon, base).f)
  {
    hide Looked, Sent, Tradable, Cover, SeenTo;
    SentSeenTo(f, !isBuy, p, id, size, base);
    SeenToSelf(f);
  }

  lemma PreOfSeenTo(f: Floor, isBuy: bool, p: nat, id: nat, sz: nat, aon: bool, base: nat)
    requires 0 < p < |f.book| && Cover(f)
    ensures SeenTo(f, PreOf(f, isBuy, p, id, sz, aon, base).f)
  {
    hide PrePass, Overlapped, Cover, SeenTo;
    OverlapsLeveled(f.book, !isBuy, p);
    PreSeenTo(f, isBuy, Overlapped(f.book, !isBuy, p), p, id, aon, sz, base);
  }

  lemma RestSeenTo(f: Floor, isBuy: bool, p: nat, id: nat, sz: nat, aon: bool, base: nat)
    requires 0 < p < |f.book| && Cover(f)
    ensures SeenTo(f, PostOf(Rested(f, isBuy, p, id, sz, aon), isBuy, p, base).f)
  {
    hide PostPass, Overlapped, Cover, SeenTo, Rested;
    var g := Rested(f, isBuy, p, id, sz, aon);
    RestedSeenTo(f, isBuy, p, id, sz, aon);
    SeenToCover(f, g);
    OverlapsLeveled(g.book, !isBuy, p);
    PostSeenTo(g, isBuy, Overlapped(g.book, !isBuy, p), base);
    SeenToTrans(f, g, PostOf(g, isBuy, p, base).f);
  }

  lemma LimitSeenTo(f: Floor, isBuy: bool, p: nat, id: nat, sz: nat, aon: bool, base: nat)
    requires 0 < p < |f.book| && Cover(f)
    ensures SeenTo(f, LimitPass(f, isBuy, p, id, sz, aon, base).f)
  {
    hide PreOf, Crossed, PostOf, Rested, Cover, SeenTo;
    PreOfSeenTo(f, isBuy, p, id, sz, aon, base);
    var pre := PreOf(f, isBuy, p, id, sz, aon, base);
    if !pre.fault && pre.left > 0 {
      SeenToCover(f, pre.f);
      var m := Crossed(pre.f, isBuy, p, id, pre.left, aon, base);
      CrossSeenTo(pre.f, isBuy, p, id, pre.left, aon, base);
      SeenToTrans(f, pre.f, m.f);
      if !m.fault && m.left > 0 {
        SeenToCover(f, m.f);
        RestSeenTo(m.f, isBuy, p, id, m.left, aon, base);
        SeenToTrans(f, m.f, LimitPass(f, isBuy, p, id, sz, aon, base).f);
      }
    }
  }

  lemma MarketSeenTo(f: Floor, isBuy: bool, id: nat, sz: nat, base: nat)
    requires |f.book| > 1 && Cover(f)
    ensures SeenTo(f, MarketPass(f, isBuy, id, sz, base).f)
  {
    hide PreOf, Sent, Cover, SeenTo;
    var p := Outermost(isBuy, |f.book|);
    PreOfSeenTo(f, isBuy, p, id, sz, false, base);
    var pre := PreOf(f, isBuy, p, id, sz, false, base);
    if !pre.fault && pre.left > 0 {
      SeenToCover(f, pre.f);
      SentSeenTo(pre.f, !isBuy, p, id, pre.left, base);
      SeenToTrans(f, pre.f, MarketPass(f, isBuy, id, sz, base).f);
    }
  }

  /** A limit or market order has entered: if anything was traded, no stop rests that is due at the last
      price, unless the closing trade of an all-or-none order still has a check to come; if nothing was, no
      stop was triggered and nothing queued. */
  lemma EnteredChecks(f: Floor, t: Ticket, base: nat)
    requires |f.book| > 1 && Acceptable(t, base, |f.book|) && (t.otype.LimitOrder? || t.otype.Market?)
    requires StopsWithin(f.book, true, f.lowBuyStop, f.highBuyStop)
      && StopsWithin(f.book, false, f.lowSellStop, f.highSellStop)
    ensures var g := Entered(f, t, base).f;
      && |f.tape| <= |g.tape| && g.tape[..|f.tape|] == f.tape
      && (|g.tape| > |f.tape| ==>
           g.check || forall q, b :: 0 <= q < |g.book| && b in g.book[q].stops ==> !Due(b, q, g.last))
      && (|g.tape| == |f.tape| && !f.check ==>
           && g.queue == f.queue && g.last == f.last
           && forall q :: 0 <= q < |f.book| ==> g.book[q].stops == f.book[q].stops)
  {
    hide LimitPass, MarketPass, HasStop, Due, Killed;
    if t.otype.Market? {
      MarketSeenTo(f, t.isBuy, t.id, t.sz, base);
    } else {
      SeenToSelf(f);
      LimitSeenTo(f, t.isBuy, LevelOf(t.limit, base), t.id, t.sz, t.cond.AllOrNone?, base);
    }
    SeenToTape(f, Entered(f, t, base).f);
  }

  lemma SeenToTape(f: Floor, g: Floor)
    requires SeenTo(f, g)
    ensures |g.tape| == |f.tape| <==> g.tape == f.tape
  {
  }
}
