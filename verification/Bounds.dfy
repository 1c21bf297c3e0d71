/** No order trades beyond its limit: neither as it enters, nor from where it has come to rest, nor if
    it is what a stop with a limit has become. */
module Bounds {
  import opened Ladder
  import opened Matcher
  import opened Desk
  import opened Overlaps
  import opened Sweep
  import opened Reference
  import opened Faults

  /* ---- where an order is ---- */

  predicate NoneOf(c: seq<Bundle>, id: nat) {
    forall b :: b in c ==> b.id != id
  }

  /** In chain c id is there only if it may be, and not as an all-or-none order. */
  predicate PlainOnly(c: seq<Bundle>, id: nat, here: bool) {
    forall b :: b in c && b.id == id ==> here && !IsAon(b)
  }

  predicate OnlyIn(l: Level, id: nat, here: bool) {
    NoneOf(l.aonBuys, id) && NoneOf(l.aonSells, id) && PlainOnly(l.limits, id, here)
  }

  /** Among the orders that can trade id is at most in the limit chain of level p, and only if it may
      be in the book at all. */
  predicate Only(book: seq<Level>, id: nat, p: nat, may: bool) {
    forall q :: 0 <= q < |book| ==> OnlyIn(book[q], id, may && q == p)
  }

  /* ---- what a sale may be ---- */

  /** id sells or buys as it enters at its limit p or better, and at p once it rests. */
  predicate Fair(s: Sale, id: nat, isBuy: bool, p: nat, base: nat) {
    && (s.taker == id ==> if isBuy then s.price <= base + p - 1 else s.price >= base + p - 1)
    && (s.maker == id ==> s.price == base + p - 1)
  }

  /** The sales from f to g are fair to id, and what is queued since has later ids. */
  ghost predicate Fairly(f: Floor, g: Floor, id: nat, isBuy: bool, p: nat, base: nat) {
    && |f.tape| <= |g.tape| && g.tape[..|f.tape|] == f.tape
    && (forall i :: |f.tape| <= i < |g.tape| ==> Fair(g.tape[i], id, isBuy, p, base))
    && |f.queue| <= |g.queue| && g.queue[..|f.queue|] == f.queue && f.lastId <= g.lastId
    && (forall i :: |f.queue| <= i < |g.queue| ==> g.queue[i].id > f.lastId)
  }

  lemma FairlySelf(f: Floor, id: nat, isBuy: bool, p: nat, base: nat)
    ensures Fairly(f, f, id, isBuy, p, base)
  {
  }

  lemma FairlyTrans(f: Floor, g: Floor, h: Floor, id: nat, isBuy: bool, p: nat, base: nat)
    requires Fairly(f, g, id, isBuy, p, base) && Fairly(g, h, id, isBuy, p, base)
    ensures Fairly(f, h, id, isBuy, p, base)
  {
    forall i | |f.tape| <= i < |h.tape| ensures Fair(h.tape[i], id, isBuy, p, base) {
      assert i < |g.tape| ==> h.tape[i] == g.tape[i];
    }
    forall i | |f.queue| <= i < |h.queue| ensures h.queue[i].id > f.lastId {
      assert i < |g.queue| ==> h.queue[i] == g.queue[i];
    }
  }

  /* ---- matching ---- */

  lemma {:induction false} HitAonsOnly(c: seq<Bundle>, p: nat, size: nat, id: nat)
    requires NoneOf(c, id)
    ensures var h := HitAons(c, p, size);
      NoneOf(h.rest, id) && forall f :: f in h.fills ==> f.level == p && f.maker != id
  {
    if c != [] && size != 0 {
      assert c[0] in c && forall b :: b in c[1..] ==> b in c;
      HitAonsOnly(c[1..], p, if size < c[0].sz then size else size - c[0].sz, id);
    }
  }

  lemma {:induction false} HitLimitsOnly(c: seq<Bundle>, p: nat, size: nat, id: nat, here: bool)
    requires PlainOnly(c, id, here)
    ensures var h := HitLimits(c, p, size);
      && PlainOnly(h.rest, id, here) && NoneOf(h.moved, id)
      && forall f :: f in h.fills ==> f.level == p && (f.maker == id ==> here)
  {
    if c != [] && size != 0 {
      assert c[0] in c && forall b :: b in c[1..] ==> b in c;
      if size < c[0].sz && !IsAon(c[0]) {
        assert forall b :: b in [Resized(c[0], c[0].sz - size)] + c[1..] ==>
          b == Resized(c[0], c[0].sz - size) || b in c[1..];
      } else {
        HitLimitsOnly(c[1..], p, if size < c[0].sz then size else size - c[0].sz, id, here);
      }
    }
  }

  lemma HitLevelOnly(l: Level, bids: bool, onSide: bool, p: nat, size: nat, id: nat, here: bool)
    requires OnlyIn(l, id, here)
    ensures var h := HitLevel(l, bids, onSide, p, size);
      OnlyIn(h.level, id, here) && forall f :: f in h.fills ==> f.level == p && (f.maker == id ==> here)
  {
    var a := HitAons(Chain(l, AonKind(bids)), p, size);
    HitAonsOnly(Chain(l, AonKind(bids)), p, size, id);
    HitLimitsOnly(l.limits, p, a.left, id, here);
    hide HitAons, HitLimits;
  }

  /** A trade within the limit, and with id only where that may rest. */
  predicate FillFair(f: Fill, n: nat, bids: bool, limit: nat, id: nat, at: nat, may: bool) {
    0 < f.level < n && InsideOf(bids, f.level, limit) && (f.maker == id ==> may && f.level == at)
  }

  lemma {:induction false} MatchOnly(book: seq<Level>, bids: bool, inside: nat, p: nat, limit: nat, size: nat, id: nat,
          at: nat, may: bool)
    requires OnBook(|book|, bids, p, limit) && Only(book, id, at, may)
    ensures var m := Match(book, bids, inside, p, limit, size);
      && Only(m.book, id, at, may)
      && forall f :: f in m.fills ==> FillFair(f, |book|, bids, limit, id, at, may)
    decreases if bids then p else |book| - p
  {
    if size != 0 && InsideOf(bids, p, limit) {
      var h := HitLevel(book[p], bids, OnSide(bids, p, inside), p, size);
      HitLevelOnly(book[p], bids, OnSide(bids, p, inside), p, size, id, may && p == at);
      hide HitLevel, OnlyIn;
      assert Only(book[p := h.level], id, at, may);
      MatchOnly(book[p := h.level], bids, inside, Next(bids, p), limit, h.left, id, at, may);
    }
  }

  lemma {:induction false} SaleOf(fills: seq<Fill>, taker: nat, base: nat, i: nat)
    requires i < |SalesOf(fills, taker, base)|
    ensures i < |fills|
    ensures SalesOf(fills, taker, base)[i] == Sale(base + fills[i].level - 1, fills[i].size, taker, fills[i].maker)
  {
    if i > 0 {
      SaleOf(fills[1..], taker, base, i - 1);
    }
  }

  lemma SettledFair(f: Floor, id: nat, isBuy: bool, at: nat, may: bool, base: nat)
    ensures Fairly(f, Settled(f), id, isBuy, at, base)
    ensures Only(f.book, id, at, may) ==> Only(Settled(f).book, id, at, may)
  {
    TicketIds(DueStops(f), f.lastId);
    hide DueStops, Tickets;
  }

  lemma {:induction false} TicketIds(bs: seq<Bundle>, id: nat)
    ensures forall t :: t in Tickets(bs, id) ==> t.id > id
  {
    if bs != [] {
      TicketIds(bs[1..], id + 1);
    }
  }

  /** An order is sent to a side: id itself, within its limit and not in the book yet, or another one. */
  lemma SentFair(f: Floor, bids: bool, plev: nat, taker: nat, size: nat, base: nat, id: nat, isBuy: bool, at: nat,
                 may: bool)
    requires 0 < plev < |f.book| && Only(f.book, id, at, may)
    requires taker == id ==> bids != isBuy && plev == at && !may
    ensures var r := Sent(f, bids, plev, taker, size, base);
      Fairly(f, r.f, id, isBuy, at, base) && Only(r.f.book, id, at, may)
  {
    hide Only, Match, SalesOf, Outward, FillFair, Settled;
    var m := Match(f.book, bids, InsideLevel(f, bids), Outermost(bids, |f.book|), plev, size);
    MatchOnly(f.book, bids, InsideLevel(f, bids), Outermost(bids, |f.book|), plev, size, id, at, may);
    var g := Matched(f, bids, plev, taker, size, base).f;
    assert Fairly(f, g, id, isBuy, at, base) by {
      forall i | |f.tape| <= i < |g.tape| ensures Fair(g.tape[i], id, isBuy, at, base) {
        SaleFair(m.fills, taker, base, i - |f.tape|, |f.book|, bids, plev, id, isBuy, at, may);
        assert g.tape[i] == SalesOf(m.fills, taker, base)[i - |f.tape|];
      }
    }
    SettledFair(g, id, isBuy, at, may, base);
    FairlyTrans(f, g, Settled(g), id, isBuy, at, base);
  }

  lemma SaleFair(fills: seq<Fill>, taker: nat, base: nat, i: nat, n: nat, bids: bool, plev: nat, id: nat, isBuy: bool,
                 at: nat, may: bool)
    requires i < |SalesOf(fills, taker, base)|
    requires forall f :: f in fills ==> FillFair(f, n, bids, plev, id, at, may)
    requires taker == id ==> bids != isBuy && plev == at && !may
    ensures Fair(SalesOf(fills, taker, base)[i], id, isBuy, at, base)
  {
    SaleOf(fills, taker, base, i);
    assert fills[i] in fills;
  }

  /* ---- the passes ---- */

  predicate OthersIn(os: seq<Overlap>, id: nat) {
    forall o :: o in os ==> o.bundle.id != id
  }

  lemma PulledOnly(book: seq<Level>, bids: bool, o: Overlap, id: nat, at: nat, may: bool)
    requires o.level < |book| && Only(book, id, at, may)
    ensures Only(Pull(book, bids, o), id, at, may)
  {
    var c := Chain(book[o.level], AonKind(bids));
    var i := IndexOf(c, o.bundle.id);
    if i < |c| {
      assert forall b :: b in Without(c, i) ==> b in c;
    }
  }

  lemma ExecutedFair(f: Floor, bids: bool, o: Overlap, base: nat, id: nat, isBuy: bool, at: nat, may: bool)
    requires 0 < o.level < |f.book| && Only(f.book, id, at, may) && o.bundle.id != id
    ensures var r := Executed(f, bids, o, base);
      Fairly(f, r.f, id, isBuy, at, base) && Only(r.f.book, id, at, may)
  {
    hide Only, Pull, Sent;
    PulledOnly(f.book, !bids, o, id, at, may);
    var f1 := f.(book := Pull(f.book, !bids, o));
    SentFair(f1, bids, o.level, o.bundle.id, o.bundle.sz, base, id, isBuy, at, may);
  }

  lemma ClosedFair(f: Floor, p: nat, taker: nat, maker: nat, left: nat, base: nat, id: nat, isBuy: bool, at: nat)
    requires taker != id && (maker == id ==> p == at)
    ensures Fairly(f, Closed(f, p, taker, maker, left, base), id, isBuy, at, base)
  {
  }

  lemma {:induction false} PreFair(f: Floor, bids: bool, os: seq<Overlap>, p: nat, uid: nat, aon: bool, rmndr: nat,
          base: nat, id: nat, isBuy: bool, at: nat, may: bool)
    requires Leveled(|f.book|, os) && Only(f.book, id, at, may) && OthersIn(os, id) && (uid == id ==> p == at)
    ensures var r := PrePass(f, bids, os, p, uid, aon, rmndr, base);
      Fairly(f, r.f, id, isBuy, at, base) && Only(r.f.book, id, at, may)
    decreases |os|
  {
    hide Only, Looked, Executed, Closed, Suffices, Leveled, Fairly;
    FairlySelf(f, id, isBuy, at, base);
    if os != [] && rmndr > 0 {
      var o := os[|os| - 1];
      var rest := os[..|os| - 1];
      LastLeveled(|f.book|, os);
      assert o in os && OthersIn(rest, id);
      var left := Looked(f, bids, o.level, o.bundle.sz);
      if Suffices(aon, left, rmndr) {
        FitsRest(aon, left, rmndr);
        var r := Executed(f, bids, o, base);
        ExecutedFair(f, bids, o, base, id, isBuy, at, may);
        if !r.fault {
          var g := Closed(r.f, p, o.bundle.id, uid, left, base);
          ClosedFair(r.f, p, o.bundle.id, uid, left, base, id, isBuy, at);
          FairlyTrans(f, r.f, g, id, isBuy, at, base);
          PreFair(g, bids, rest, p, uid, aon, rmndr - left, base, id, isBuy, at, may);
          FairlyTrans(f, g, PrePass(g, bids, rest, p, uid, aon, rmndr - left, base).f, id, isBuy, at, base);
        }
      } else {
        PreFair(f, bids, rest, p, uid, aon, rmndr, base, id, isBuy, at, may);
      }
    }
  }

  lemma {:induction false} PostFair(f: Floor, bids: bool, os: seq<Overlap>, base: nat, id: nat, isBuy: bool, at: nat,
          may: bool)
    requires Leveled(|f.book|, os) && Only(f.book, id, at, may) && OthersIn(os, id)
    ensures var r := PostPass(f, bids, os, base);
      Fairly(f, r.f, id, isBuy, at, base) && Only(r.f.book, id, at, may)
    decreases |os|
  {
    hide Only, Looked, Executed, Leveled, Fairly;
    FairlySelf(f, id, isBuy, at, base);
    if os != [] {
      var o := os[|os| - 1];
      var rest := os[..|os| - 1];
      LastLeveled(|f.book|, os);
      assert o in os && OthersIn(rest, id);
      if Looked(f, bids, o.level, o.bundle.sz) == 0 {
        var r := Executed(f, bids, o, base);
        ExecutedFair(f, bids, o, base, id, isBuy, at, may);
        if !r.fault {
          PostFair(r.f, bids, rest, base, id, isBuy, at, may);
          FairlyTrans(f, r.f, PostPass(r.f, bids, rest, base).f, id, isBuy, at, base);
        }
      } else {
        PostFair(f, bids, rest, base, id, isBuy, at, may);
      }
    }
  }

  lemma OverlapsOthers(book: seq<Level>, bids: bool, p: nat, id: nat, at: nat, may: bool)
    requires Reaching(|book|, bids, p) && Only(book, id, at, may)
    ensures OthersIn(Overlapped(book, bids, p), id)
  {
    forall o | o in Overlapped(book, bids, p) ensures o.bundle.id != id {
      OverlappedIff(book, bids, p, o.level, o.bundle);
      assert OnlyIn(book[o.level], id, may && o.level == at);
    }
  }

  /* ---- orders enter ---- */

  /** The order u is not id; or it is, as a limit order at p of the given side that is not all-or-none,
      and id is not in the book. */
  predicate Apt(u: Ticket, base: nat, id: nat, isBuy: bool, p: nat, may: bool) {
    u.id == id ==> u.otype.LimitOrder? && u.cond.Plain? && u.isBuy == isBuy && LevelOf(u.limit, base) == p && !may
  }

  lemma PreOfFair(f: Floor, u: Ticket, p: nat, base: nat, id: nat, isBuy: bool, at: nat, may: bool)
    requires 0 < p < |f.book| && Only(f.book, id, at, may) && (u.id == id ==> p == at)
    ensures var r := PreOf(f, u.isBuy, p, u.id, u.sz, u.cond.AllOrNone?, base);
      Fairly(f, r.f, id, isBuy, at, base) && Only(r.f.book, id, at, may)
  {
    hide Only, PrePass, Overlapped, Fairly;
    OverlapsLeveled(f.book, !u.isBuy, p);
    OverlapsOthers(f.book, !u.isBuy, p, id, at, may);
    PreFair(f, u.isBuy, Overlapped(f.book, !u.isBuy, p), p, u.id, u.cond.AllOrNone?, u.sz, base, id, isBuy, at, may);
  }

  lemma RestedOnly(f: Floor, u: Ticket, p: nat, sz: nat, base: nat, id: nat, isBuy: bool, at: nat, may: bool)
    requires 0 < p < |f.book| && Only(f.book, id, at, may) && Apt(u, base, id, isBuy, at, may)
    requires u.id == id ==> p == at
    ensures var r := Rested(f, u.isBuy, p, u.id, sz, u.cond.AllOrNone?);
      Fairly(f, r, id, isBuy, at, base) && Only(r.book, id, at, may || u.id == id)
  {
    var aon := u.cond.AllOrNone?;
    var k := RestKind(f, u.isBuy, p, aon);
    var b := Resting(u.id, sz, aon);
    var c := Chain(f.book[p], k);
    assert forall x :: x in c + [b] <==> x in c || x == b;
    var r := Rested(f, u.isBuy, p, u.id, sz, aon);
    assert r.book[p] == WithChain(f.book[p], k, c + [b]);
  }

  lemma EnterFair(f: Floor, u: Ticket, p: nat, left: nat, base: nat, id: nat, isBuy: bool, at: nat, may: bool)
    requires 0 < p < |f.book| && Only(f.book, id, at, may) && Apt(u, base, id, isBuy, at, may)
    requires u.id == id ==> p == at
    ensures var r := EnterPass(f, u.isBuy, p, u.id, left, u.cond.AllOrNone?, base);
      Fairly(f, r.f, id, isBuy, at, base) && Only(r.f.book, id, at, may || u.id == id)
  {
    hide Only, Fairly, Tradable, Looked, Sent, Rested, PostPass, Overlapped;
    var aon := u.cond.AllOrNone?;
    FairlySelf(f, id, isBuy, at, base);
    var m := Crossed(f, u.isBuy, p, u.id, left, aon, base);
    SentFair(f, !u.isBuy, p, u.id, left, base, id, isBuy, at, may);
    MayBe(f.book, id, at, may);
    MayBe(m.f.book, id, at, may);
    if !m.fault && m.left > 0 {
      var g := Rested(m.f, u.isBuy, p, u.id, m.left, aon);
      RestedOnly(m.f, u, p, m.left, base, id, isBuy, at, may);
      FairlyTrans(f, m.f, g, id, isBuy, at, base);
      OverlapsLeveled(g.book, !u.isBuy, p);
      OverlapsOthers(g.book, !u.isBuy, p, id, at, may || u.id == id);
      PostFair(g, u.isBuy, Overlapped(g.book, !u.isBuy, p), base, id, isBuy, at, may || u.id == id);
      FairlyTrans(f, g, PostOf(g, u.isBuy, p, base).f, id, isBuy, at, base);
    }
  }

  lemma MayBe(book: seq<Level>, id: nat, at: nat, may: bool)
    requires Only(book, id, at, may)
    ensures Only(book, id, at, true)
  {
  }

  lemma LimitFair(f: Floor, u: Ticket, p: nat, base: nat, id: nat, isBuy: bool, at: nat, may: bool)
    requires 0 < p < |f.book| && Only(f.book, id, at, may) && Apt(u, base, id, isBuy, at, may)
    requires u.id == id ==> p == at
    ensures var r := LimitPass(f, u.isBuy, p, u.id, u.sz, u.cond.AllOrNone?, base);
      Fairly(f, r.f, id, isBuy, at, base) && Only(r.f.book, id, at, may || u.id == id)
  {
    hide Only, Fairly, PreOf, EnterPass;
    var pre := PreOf(f, u.isBuy, p, u.id, u.sz, u.cond.AllOrNone?, base);
    PreOfFair(f, u, p, base, id, isBuy, at, may);
    MayBe(pre.f.book, id, at, may);
    if !pre.fault && pre.left > 0 {
      EnterFair(pre.f, u, p, pre.left, base, id, isBuy, at, may);
      var r := EnterPass(pre.f, u.isBuy, p, u.id, pre.left, u.cond.AllOrNone?, base);
      FairlyTrans(f, pre.f, r.f, id, isBuy, at, base);
    }
  }

  lemma MarketFair(f: Floor, u: Ticket, base: nat, id: nat, isBuy: bool, at: nat, may: bool)
    requires |f.book| > 1 && Only(f.book, id, at, may) && u.id != id && !u.cond.AllOrNone?
    ensures var r := MarketPass(f, u.isBuy, u.id, u.sz, base);
      Fairly(f, r.f, id, isBuy, at, base) && Only(r.f.book, id, at, may)
  {
    hide Only, Fairly, PreOf, Sent;
    var p := Outermost(u.isBuy, |f.book|);
    var pre := PreOf(f, u.isBuy, p, u.id, u.sz, false, base);
    PreOfFair(f, u, p, base, id, isBuy, at, may);
    if !pre.fault && pre.left > 0 {
      SentFair(pre.f, !u.isBuy, p, u.id, pre.left, base, id, isBuy, at, may);
      FairlyTrans(f, pre.f, Sent(pre.f, !u.isBuy, p, u.id, pre.left, base).f, id, isBuy, at, base);
    }
  }

  lemma StopOnly(f: Floor, p: nat, b: Bundle, base: nat, id: nat, isBuy: bool, at: nat, may: bool)
    requires 0 < p < |f.book| && b.Stop? && Only(f.book, id, at, may)
    ensures var r := StopRested(f, p, b); Fairly(f, r, id, isBuy, at, base) && Only(r.book, id, at, may)
  {
  }

  /** Whatever order enters, sales are fair to id. */
  lemma EnteredFair(f: Floor, u: Ticket, base: nat, id: nat, isBuy: bool, at: nat, may: bool)
    requires |f.book| > 1 && Acceptable(u, base, |f.book|)
    requires Only(f.book, id, at, may) && Apt(u, base, id, isBuy, at, may)
    ensures var r := Entered(f, u, base);
      Fairly(f, r.f, id, isBuy, at, base) && Only(r.f.book, id, at, may || u.id == id)
  {
    hide Only, Fairly, LimitPass, MarketPass, StopRested, Killed;
    FairlySelf(f, id, isBuy, at, base);
    MayBe(f.book, id, at, may);
    match u.otype {
      case Market => MarketFair(f, u, base, id, isBuy, at, may);
      case LimitOrder => LimitFair(f, u, LevelOf(u.limit, base), base, id, isBuy, at, may);
      case StopOrder => StopOnly(f, LevelOf(u.stop, base), Stop(u.id, u.sz, u.isBuy, 0), base, id, isBuy, at, may);
      case StopLimit =>
        StopOnly(f, LevelOf(u.stop, base), Stop(u.id, u.sz, u.isBuy, u.limit), base, id, isBuy, at, may);
    }
  }

  /* ---- whole windows ---- */

  /** id was given out, and is queued at most once, as an apt order. */
  predicate Queued(f: Floor, base: nat, id: nat, isBuy: bool, at: nat, may: bool) {
    && id <= f.lastId
    && (forall i :: 0 <= i < |f.queue| ==> Apt(f.queue[i], base, id, isBuy, at, may))
    && (forall i, j :: 0 <= i < j < |f.queue| && f.queue[i].id == id ==> f.queue[j].id != id)
  }

  lemma QueuedOn(f: Floor, g: Floor, base: nat, id: nat, isBuy: bool, at: nat, may: bool)
    requires f.queue != [] && Queued(f, base, id, isBuy, at, may)
    requires Fairly(f.(queue := f.queue[1..]), g, id, isBuy, at, base)
    ensures Queued(g, base, id, isBuy, at, may || f.queue[0].id == id)
  {
    var t := f.queue[0];
    forall i | 0 <= i < |g.queue|
      ensures Apt(g.queue[i], base, id, isBuy, at, may || t.id == id)
      ensures i >= |f.queue| - 1 ==> g.queue[i].id != id
    {
      if i < |f.queue| - 1 {
        assert g.queue[i] == f.queue[1..][i] == f.queue[i + 1];
      }
    }
    forall i, j | 0 <= i < j < |g.queue| && g.queue[i].id == id ensures g.queue[j].id != id {
      if j < |f.queue| - 1 {
        assert g.queue[i] == f.queue[1..][i] && g.queue[j] == f.queue[1..][j];
      }
    }
  }

  /** The tape part of Fairly. */
  ghost predicate TapeFair(f: Floor, g: Floor, id: nat, isBuy: bool, p: nat, base: nat) {
    && |f.tape| <= |g.tape| && g.tape[..|f.tape|] == f.tape
    && forall i :: |f.tape| <= i < |g.tape| ==> Fair(g.tape[i], id, isBuy, p, base)
  }

  lemma TapeTrans(f: Floor, g: Floor, h: Floor, id: nat, isBuy: bool, p: nat, base: nat)
    requires TapeFair(f, g, id, isBuy, p, base) && TapeFair(g, h, id, isBuy, p, base)
    ensures TapeFair(f, h, id, isBuy, p, base)
  {
    forall i | |f.tape| <= i < |h.tape| ensures Fair(h.tape[i], id, isBuy, p, base) {
      assert i < |g.tape| ==> h.tape[i] == g.tape[i];
    }
  }

  /** While the queue is worked off every sale is fair to an order that is queued, or rests: a buy is at
      its limit or below, a sell at its limit or above, and at the limit exactly once it rests. */
  lemma {:induction false} DrainedFair(f: Floor, base: nat, n: nat, id: nat, isBuy: bool, at: nat, may: bool)
    requires |f.book| > 1 && Only(f.book, id, at, may) && Queued(f, base, id, isBuy, at, may)
    ensures var r := Drained(f, base, n); TapeFair(f, r.f, id, isBuy, at, base) && Only(r.f.book, id, at, true)
    ensures id <= Drained(f, base, n).f.lastId
    decreases n
  {
    hide Only, Entered, Acceptable, Fairly, Queued;
    MayBe(f.book, id, at, may);
    assert Queued(f, base, id, isBuy, at, may) ==> id <= f.lastId by {
      GivenOut(f, base, id, isBuy, at, may);
    }
    if f.queue != [] && n > 0 && Acceptable(f.queue[0], base, |f.book|) {
      var f1, t := f.(queue := f.queue[1..]), f.queue[0];
      assert Apt(t, base, id, isBuy, at, may) by {
        FrontApt(f, base, id, isBuy, at, may);
      }
      var r := Entered(f1, t, base);
      EnteredFair(f1, t, base, id, isBuy, at, may);
      FairTape(f1, r.f, id, isBuy, at, base);
      MayBe(r.f.book, id, at, may || t.id == id);
      if !r.fault && r.left == 0 {
        QueuedOn(f, r.f, base, id, isBuy, at, may);
        DrainedFair(r.f, base, n - 1, id, isBuy, at, may || t.id == id);
        TapeTrans(f, r.f, Drained(r.f, base, n - 1).f, id, isBuy, at, base);
      }
    }
  }

  lemma GivenOut(f: Floor, base: nat, id: nat, isBuy: bool, at: nat, may: bool)
    requires Queued(f, base, id, isBuy, at, may)
    ensures id <= f.lastId
  {
  }

  lemma FrontApt(f: Floor, base: nat, id: nat, isBuy: bool, at: nat, may: bool)
    requires Queued(f, base, id, isBuy, at, may) && f.queue != []
    ensures Apt(f.queue[0], base, id, isBuy, at, may)
  {
  }

  lemma FairTape(f: Floor, g: Floor, id: nat, isBuy: bool, p: nat, base: nat)
    requires Fairly(f, g, id, isBuy, p, base)
    ensures TapeFair(f, g, id, isBuy, p, base) && f.lastId <= g.lastId
  {
  }

  /** So is every window from then on to an order that rests. */
  lemma WindowedFair(f: Floor, t: Ticket, base: nat, n: nat, id: nat, isBuy: bool, at: nat)
    requires |f.book| > 1 && Acceptable(t, base, |f.book|) && f.queue == [] && id <= f.lastId
    requires Only(f.book, id, at, true)
    ensures var r := Windowed(f, t, base, n); TapeFair(f, r.f, id, isBuy, at, base) && Only(r.f.book, id, at, true)
  {
    hide Only, Entered, Fairly, Drained;
    var f1, t1 := f.(lastId := f.lastId + 1), t.(id := f.lastId + 1);
    var r := Entered(f1, t1, base);
    EnteredFair(f1, t1, base, id, isBuy, at, true);
    FairTape(f1, r.f, id, isBuy, at, base);
    if !r.fault && r.left == 0 {
      assert Queued(r.f, base, id, isBuy, at, true) by {
        NoneQueued(f1, r.f, base, id, isBuy, at);
      }
      DrainedFair(r.f, base, n, id, isBuy, at, true);
      TapeTrans(f, r.f, Drained(r.f, base, n).f, id, isBuy, at, base);
    }
  }

  lemma NoneQueued(f: Floor, g: Floor, base: nat, id: nat, isBuy: bool, at: nat)
    requires f.queue == [] && id < f.lastId && Fairly(f, g, id, isBuy, at, base)
    ensures Queued(g, base, id, isBuy, at, true)
  {
  }

  /** A stop with a limit that a check has queued trades, in its window, at that limit or better. */
  lemma StopLimitFair(f: Floor, g: Floor, base: nat, n: nat, bs: seq<Bundle>, k: nat)
    requires k < |bs| && bs[k].Stop? && bs[k].limit > 0 && |g.book| > 1
    requires g.queue == f.queue + Tickets(bs, f.lastId) && g.lastId == f.lastId + |bs|
    requires (forall t :: t in f.queue ==> t.id <= f.lastId) && bs[k].limit >= base
    requires Only(g.book, f.lastId + k + 1, 0, false)
    ensures var b, id := bs[k], f.lastId + k + 1;
      forall s :: s in Drained(g, base, n).f.tape && s !in g.tape && (s.taker == id || s.maker == id) ==>
        if b.isBuy then s.price <= b.limit else s.price >= b.limit
  {
    var b, id := bs[k], f.lastId + k + 1;
    var at := LevelOf(b.limit, base);
    hide Drained, OnlyIn;
    TicketAt(bs, f.lastId, k);
    forall i | 0 <= i < |bs| ensures Tickets(bs, f.lastId)[i].id == f.lastId + i + 1 {
      TicketId(bs, f.lastId, i);
    }
    assert Only(g.book, id, at, false);
    forall i | 0 <= i < |g.queue| ensures g.queue[i].id == id <==> i == |f.queue| + k {
      if i < |f.queue| {
        assert g.queue[i] in f.queue;
      }
    }
    assert Queued(g, base, id, b.isBuy, at, false);
    DrainedFair(g, base, n, id, b.isBuy, at, false);
    hide Only, Queued, Tickets;
    var tape := Drained(g, base, n).f.tape;
    assert forall i :: 0 <= i < |g.tape| ==> tape[i] == tape[..|g.tape|][i] && tape[i] in g.tape;
    forall s | s in tape && s !in g.tape && (s.taker == id || s.maker == id)
      ensures if b.isBuy then s.price <= b.limit else s.price >= b.limit
    {
      var i :| 0 <= i < |tape| && tape[i] == s;
    }
  }

  lemma {:induction false} TicketId(bs: seq<Bundle>, id: nat, i: nat)
    requires i < |bs|
    ensures Tickets(bs, id)[i].id == id + i + 1
  {
    if i > 0 {
      TicketId(bs[1..], id + 1, i - 1);
    }
  }
}
