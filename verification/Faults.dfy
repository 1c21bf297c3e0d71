/** Exactly when an operation faults, told by looking at the book an order meets, without
    matching it. */
module Faults {
  import opened Ladder
  import opened Matcher
  import opened Desk
  import opened Overlaps
  import opened Reference

  function Sum(c: seq<Bundle>): nat {
    if c == [] then 0 else c[0].sz + Sum(c[1..])
  }

  /** The size runs out inside an all-or-none order: those before it take less than all of it,
      and those up to it would take more. */
  ghost predicate Straddled(c: seq<Bundle>, size: nat) {
    exists i :: 0 <= i < |c| && StraddledAt(c, i, size)
  }

  predicate StraddledAt(c: seq<Bundle>, i: nat, size: nat)
    requires i < |c|
  {
    IsAon(c[i]) && Sum(c[..i]) < size < Sum(c[..i]) + c[i].sz
  }

  lemma StraddledNext(c: seq<Bundle>, i: nat, size: nat)
    requires i + 1 < |c| && c[0].sz <= size
    ensures StraddledAt(c, i + 1, size) <==> StraddledAt(c[1..], i, size - c[0].sz)
  {
    assert c[..i + 1][1..] == c[1..][..i];
  }

  /** An order of a limit chain steps aside exactly when the size runs out inside an
      all-or-none order. */
  lemma {:induction false} StepsAsideIff(c: seq<Bundle>, p: nat, size: nat)
    ensures HitLimits(c, p, size).moved != [] <==> Straddled(c, size)
  {
    if c != [] && size != 0 {
      assert c[..0] == [];
      if size < c[0].sz {
        if IsAon(c[0]) {
          assert StraddledAt(c, 0, size);
        } else {
          forall i | 0 <= i < |c| ensures !StraddledAt(c, i, size) {
            if i > 0 {
              assert c[..i][0] == c[0];
            }
          }
        }
      } else {
        var rest := size - c[0].sz;
        StepsAsideIff(c[1..], p, rest);
        if Straddled(c[1..], rest) {
          var i :| 0 <= i < |c[1..]| && StraddledAt(c[1..], i, rest);
          StraddledNext(c, i, size);
          assert StraddledAt(c, i + 1, size);
        }
        if Straddled(c, size) {
          var i :| 0 <= i < |c| && StraddledAt(c, i, size);
          assert i > 0;
          StraddledNext(c, i - 1, size);
          assert StraddledAt(c[1..], i - 1, rest);
        }
      }
    }
  }

  /** What an AON chain lets pass of a size: each order that still fits takes its own. */
  function PastAons(c: seq<Bundle>, size: nat): (left: nat)
    ensures left <= size
  {
    if c == [] then size else PastAons(c[1..], if c[0].sz <= size then size - c[0].sz else size)
  }

  /** What a limit chain lets pass. */
  function PastLimits(c: seq<Bundle>, size: nat): (left: nat)
    ensures left <= size
  {
    if c == [] then size
    else if c[0].sz <= size then PastLimits(c[1..], size - c[0].sz)
    else if IsAon(c[0]) then PastLimits(c[1..], size)
    else 0
  }

  lemma {:induction false} PastAonsIs(c: seq<Bundle>, p: nat, size: nat)
    ensures HitAons(c, p, size).left == PastAons(c, size)
  {
    if c != [] {
      if size == 0 {
        PastNone(c);
      } else {
        PastAonsIs(c[1..], p, if c[0].sz <= size then size - c[0].sz else size);
      }
    }
  }

  lemma {:induction false} PastNone(c: seq<Bundle>)
    ensures PastAons(c, 0) == 0 && PastLimits(c, 0) == 0
  {
    if c != [] {
      PastNone(c[1..]);
    }
  }

  lemma {:induction false} PastLimitsIs(c: seq<Bundle>, p: nat, size: nat)
    ensures HitLimits(c, p, size).left == PastLimits(c, size)
  {
    if c != [] {
      if size == 0 {
        PastNone(c);
      } else {
        PastLimitsIs(c[1..], p, if c[0].sz <= size then size - c[0].sz else size);
      }
    }
  }

  /** What a level lets pass. */
  function Past(l: Level, bids: bool, onSide: bool, size: nat): (left: nat)
    ensures left <= size
  {
    var a := PastAons(Chain(l, AonKind(bids)), size);
    if onSide then PastLimits(l.limits, a) else a
  }

  /** A level with limit orders of the side being hit, whose AON chain takes all that arrives,
      or which are sells, all-or-none at the point where the size runs out. */
  ghost predicate Hazardous(l: Level, bids: bool, onSide: bool, size: nat) {
    && onSide && l.limits != []
    && var a := PastAons(Chain(l, AonKind(bids)), size);
    a == 0 || (!bids && Straddled(l.limits, a))
  }

  lemma LevelFaultsIff(l: Level, bids: bool, onSide: bool, p: nat, size: nat)
    ensures var h := HitLevel(l, bids, onSide, p, size);
      (h.fault <==> Hazardous(l, bids, onSide, size)) && h.left == Past(l, bids, onSide, size)
  {
    var c := Chain(l, AonKind(bids));
    PastAonsIs(c, p, size);
    PastLimitsIs(l.limits, p, PastAons(c, size));
    StepsAsideIff(l.limits, p, PastAons(c, size));
  }

  /** What of a size sent from p reaches level r. */
  function Arriving(book: seq<Level>, bids: bool, inside: nat, p: nat, r: nat, size: nat): (left: nat)
    requires p < |book| && r < |book| && Beyond(bids, p, r)
    ensures left <= size
    decreases if bids then p else |book| - p
  {
    if p == r then size else Arriving(book, bids, inside, Next(bids, p), r,
      Past(book[p], bids, OnSide(bids, p, inside), size))
  }

  /** Some of the size reaches a level within the limit that is hazardous for that much. */
  ghost predicate FaultsFrom(book: seq<Level>, bids: bool, inside: nat, p: nat, limit: nat, size: nat)
    requires OnBook(|book|, bids, p, limit)
  {
    exists r :: 0 < r < |book| && Beyond(bids, p, r) && FaultsAt(book, bids, inside, p, r, limit, size)
  }

  ghost predicate FaultsAt(book: seq<Level>, bids: bool, inside: nat, p: nat, r: nat, limit: nat, size: nat)
    requires p < |book| && r < |book| && Beyond(bids, p, r)
  {
    && InsideOf(bids, r, limit)
    && var a := Arriving(book, bids, inside, p, r, size);
    a > 0 && Hazardous(book[r], bids, OnSide(bids, r, inside), a)
  }

  lemma {:induction false} NoneArrives(book: seq<Level>, bids: bool, inside: nat, p: nat, r: nat)
    requires p < |book| && r < |book| && Beyond(bids, p, r)
    ensures Arriving(book, bids, inside, p, r, 0) == 0
    decreases if bids then p else |book| - p
  {
    if p != r {
      NoneArrives(book, bids, inside, Next(bids, p), r);
    }
  }

  /** A match faults exactly when some of the size reaches a level that is hazardous for that
      much; levels already passed do not matter. */
  lemma {:induction false} MatchFaultsIff(book: seq<Level>, old_: seq<Level>, bids: bool, inside: nat, p: nat,
          limit: nat, size: nat)
    requires OnBook(|book|, bids, p, limit) && |old_| == |book|
    requires forall r :: 0 < r < |book| && Beyond(bids, p, r) ==> book[r] == old_[r]
    ensures Match(book, bids, inside, p, limit, size).fault <==> FaultsFrom(old_, bids, inside, p, limit, size)
    decreases if bids then p else |book| - p
  {
    if size == 0 || !InsideOf(bids, p, limit) {
      forall r | 0 < r < |book| && Beyond(bids, p, r) && InsideOf(bids, r, limit)
        ensures !FaultsAt(old_, bids, inside, p, r, limit, size) {
        NoneArrives(old_, bids, inside, p, r);
      }
    } else {
      assert book[p] == old_[p];
      var h := HitLevel(book[p], bids, OnSide(bids, p, inside), p, size);
      LevelFaultsIff(book[p], bids, OnSide(bids, p, inside), p, size);
      hide HitLevel, Hazardous, Past;
      MatchFaultsIff(book[p := h.level], old_, bids, inside, Next(bids, p), limit, h.left);
      FaultsNext(old_, bids, inside, p, limit, size);
    }
  }

  /** The level at p is hazardous, or one further out is for what passes this one. */
  lemma FaultsNext(book: seq<Level>, bids: bool, inside: nat, p: nat, limit: nat, size: nat)
    requires OnBook(|book|, bids, p, limit) && size > 0 && InsideOf(bids, p, limit)
    ensures FaultsFrom(book, bids, inside, p, limit, size) <==>
      || Hazardous(book[p], bids, OnSide(bids, p, inside), size)
      || FaultsFrom(book, bids, inside, Next(bids, p), limit, Past(book[p], bids, OnSide(bids, p, inside), size))
  {
    hide Hazardous, Past;
    var q := Next(bids, p);
    var left := Past(book[p], bids, OnSide(bids, p, inside), size);
    if Hazardous(book[p], bids, OnSide(bids, p, inside), size) {
      assert FaultsAt(book, bids, inside, p, p, limit, size);
    }
    if FaultsFrom(book, bids, inside, q, limit, left) {
      var r :| 0 < r < |book| && Beyond(bids, q, r) && FaultsAt(book, bids, inside, q, r, limit, left);
      assert FaultsAt(book, bids, inside, p, r, limit, size);
    }
    if FaultsFrom(book, bids, inside, p, limit, size) {
      var r :| 0 < r < |book| && Beyond(bids, p, r) && FaultsAt(book, bids, inside, p, r, limit, size);
      if r != p {
        assert FaultsAt(book, bids, inside, q, r, limit, left);
      }
    }
  }

  /* ---- orders ---- */

  /** Sending this much to a side of the book, up to level plev, meets a hazardous level. */
  ghost predicate SendFaults(f: Floor, bids: bool, plev: nat, size: nat)
    requires 0 < plev < |f.book|
  {
    FaultsFrom(f.book, bids, InsideLevel(f, bids), Outermost(bids, |f.book|), plev, size)
  }

  lemma SentFaultsIff(f: Floor, bids: bool, plev: nat, id: nat, size: nat, base: nat)
    requires 0 < plev < |f.book|
    ensures Sent(f, bids, plev, id, size, base).fault <==> SendFaults(f, bids, plev, size)
  {
    hide Match, FaultsFrom;
    MatchFaultsIff(f.book, f.book, bids, InsideLevel(f, bids), Outermost(bids, |f.book|), plev, size);
  }

  ghost predicate ExecuteFaults(f: Floor, bids: bool, o: Overlap)
    requires 0 < o.level < |f.book|
  {
    SendFaults(f.(book := Pull(f.book, !bids, o)), bids, o.level, o.bundle.sz)
  }

  /** The turn of an overlapping order comes for which the book, with the new order, suffices, and
      sending it meets a hazardous level. */
  ghost predicate PreFaults(f: Floor, bids: bool, os: seq<Overlap>, p: nat, id: nat, aon: bool, rmndr: nat, base: nat)
    requires Leveled(|f.book|, os)
    decreases |os|
  {
    os != [] && rmndr > 0 &&
      var o := os[|os| - 1];
      var rest := os[..|os| - 1];
      var left := Looked(f, bids, o.level, o.bundle.sz);
      if Suffices(aon, left, rmndr) then
        || ExecuteFaults(f, bids, o)
        || PreFaults(Closed(Executed(f, bids, o, base).f, p, o.bundle.id, id, left, base), bids, rest, p, id, aon,
          rmndr - left, base)
      else PreFaults(f, bids, rest, p, id, aon, rmndr, base)
  }

  lemma {:induction false} PreFaultsIff(f: Floor, bids: bool, os: seq<Overlap>, p: nat, id: nat, aon: bool, rmndr: nat,
          base: nat)
    requires Leveled(|f.book|, os)
    ensures PrePass(f, bids, os, p, id, aon, rmndr, base).fault <==> PreFaults(f, bids, os, p, id, aon, rmndr, base)
    decreases |os|
  {
    hide Looked, Sent, Closed, SendFaults, Suffices, Leveled;
    if os != [] && rmndr > 0 {
      var o := os[|os| - 1];
      LastLeveled(|f.book|, os);
      var left := Looked(f, bids, o.level, o.bundle.sz);
      if Suffices(aon, left, rmndr) {
        var f1 := f.(book := Pull(f.book, !bids, o));
        SentFaultsIff(f1, bids, o.level, o.bundle.id, o.bundle.sz, base);
        FitsRest(aon, left, rmndr);
        var r := Executed(f, bids, o, base);
        if !r.fault {
          PreFaultsIff(Closed(r.f, p, o.bundle.id, id, left, base), bids, os[..|os| - 1], p, id, aon, rmndr - left,
            base);
        }
      } else {
        PreFaultsIff(f, bids, os[..|os| - 1], p, id, aon, rmndr, base);
      }
    }
  }

  lemma LastLeveled(n: nat, os: seq<Overlap>)
    requires Leveled(n, os) && os != []
    ensures 0 < os[|os| - 1].level < n && Leveled(n, os[..|os| - 1])
  {
    assert os[|os| - 1] in os;
  }

  lemma FitsRest(aon: bool, left: nat, rmndr: nat)
    requires Suffices(aon, left, rmndr)
    ensures left <= rmndr
  {
  }

  /** The turn of an overlapping order comes for which the book suffices, and sending it meets a
      hazardous level. */
  ghost predicate PostFaults(f: Floor, bids: bool, os: seq<Overlap>, base: nat)
    requires Leveled(|f.book|, os)
    decreases |os|
  {
    os != [] &&
      var o := os[|os| - 1];
      var rest := os[..|os| - 1];
      if Looked(f, bids, o.level, o.bundle.sz) == 0
        then ExecuteFaults(f, bids, o) || PostFaults(Executed(f, bids, o, base).f, bids, rest, base)
      else PostFaults(f, bids, rest, base)
  }

  lemma {:induction false} PostFaultsIff(f: Floor, bids: bool, os: seq<Overlap>, base: nat)
    requires Leveled(|f.book|, os)
    ensures PostPass(f, bids, os, base).fault <==> PostFaults(f, bids, os, base)
    decreases |os|
  {
    hide Looked, Sent, SendFaults, Leveled;
    if os != [] {
      var o := os[|os| - 1];
      LastLeveled(|f.book|, os);
      if Looked(f, bids, o.level, o.bundle.sz) == 0 {
        var f1 := f.(book := Pull(f.book, !bids, o));
        SentFaultsIff(f1, bids, o.level, o.bundle.id, o.bundle.sz, base);
        if !Executed(f, bids, o, base).fault {
          PostFaultsIff(Executed(f, bids, o, base).f, bids, os[..|os| - 1], base);
        }
      } else {
        PostFaultsIff(f, bids, os[..|os| - 1], base);
      }
    }
  }

  /** A new order crosses a book with a hazardous level on its way. */
  ghost predicate CrossFaults(f: Floor, isBuy: bool, p: nat, size: nat, aon: bool)
    requires 0 < p < |f.book|
  {
    Tradable(f, !isBuy, p) && (aon ==> Looked(f, !isBuy, p, size) == 0) && SendFaults(f, !isBuy, p, size)
  }

  ghost predicate PostOfFaults(f: Floor, isBuy: bool, p: nat, base: nat)
    requires 0 < p < |f.book|
  {
    OverlapsLeveled(f.book, !isBuy, p);
    PostFaults(f, isBuy, Overlapped(f.book, !isBuy, p), base)
  }

  ghost predicate PreOfFaults(f: Floor, isBuy: bool, p: nat, id: nat, sz: nat, aon: bool, base: nat)
    requires 0 < p < |f.book|
  {
    OverlapsLeveled(f.book, !isBuy, p);
    PreFaults(f, isBuy, Overlapped(f.book, !isBuy, p), p, id, aon, sz, base)
  }

  /** Entering a limit order: one of the passes over overlapping orders meets a hazardous level,
      or what is left of the order does. */
  ghost predicate LimitFaults(f: Floor, isBuy: bool, p: nat, id: nat, sz: nat, aon: bool, base: nat)
    requires 0 < p < |f.book|
  {
    || PreOfFaults(f, isBuy, p, id, sz, aon, base)
    || var pre := PreOf(f, isBuy, p, id, sz, aon, base);
       pre.left > 0 && (
         || CrossFaults(pre.f, isBuy, p, pre.left, aon)
         || var m := Crossed(pre.f, isBuy, p, id, pre.left, aon, base);
            m.left > 0 && PostOfFaults(Rested(m.f, isBuy, p, id, m.left, aon), isBuy, p, base))
  }

  lemma PreOfFaultsIff(f: Floor, isBuy: bool, p: nat, id: nat, sz: nat, aon: bool, base: nat)
    requires 0 < p < |f.book|
    ensures PreOf(f, isBuy, p, id, sz, aon, base).fault <==> PreOfFaults(f, isBuy, p, id, sz, aon, base)
    ensures PreOf(f, isBuy, p, id, sz, aon, base).fault ==> PreOf(f, isBuy, p, id, sz, aon, base).left == 0
  {
    hide PrePass, PreFaults;
    OverlapsLeveled(f.book, !isBuy, p);
    PreFaultsIff(f, isBuy, Overlapped(f.book, !isBuy, p), p, id, aon, sz, base);
    FaultLeft(f, isBuy, Overlapped(f.book, !isBuy, p), p, id, aon, sz, base);
  }

  lemma {:induction false} FaultLeft(f: Floor, bids: bool, os: seq<Overlap>, p: nat, id: nat, aon: bool, rmndr: nat,
          base: nat)
    requires Leveled(|f.book|, os)
    ensures var r := PrePass(f, bids, os, p, id, aon, rmndr, base); r.fault ==> r.left == 0
    decreases |os|
  {
    hide Looked, Sent, Closed, Suffices, Leveled;
    if os != [] && rmndr > 0 {
      var o := os[|os| - 1];
      LastLeveled(|f.book|, os);
      var left := Looked(f, bids, o.level, o.bundle.sz);
      if Suffices(aon, left, rmndr) {
        FitsRest(aon, left, rmndr);
        var r := Executed(f, bids, o, base);
        if !r.fault {
          FaultLeft(Closed(r.f, p, o.bundle.id, id, left, base), bids, os[..|os| - 1], p, id, aon, rmndr - left, base);
        }
      } else {
        FaultLeft(f, bids, os[..|os| - 1], p, id, aon, rmndr, base);
      }
    }
  }

  lemma CrossFaultsIff(f: Floor, isBuy: bool, p: nat, id: nat, size: nat, aon: bool, base: nat)
    requires 0 < p < |f.book|
    ensures Crossed(f, isBuy, p, id, size, aon, base).fault <==> CrossFaults(f, isBuy, p, size, aon)
  {
    hide Sent, Looked, Tradable, SendFaults;
    SentFaultsIff(f, !isBuy, p, id, size, base);
  }

  lemma PostOfFaultsIff(f: Floor, isBuy: bool, p: nat, base: nat)
    requires 0 < p < |f.book|
    ensures PostOf(f, isBuy, p, base).fault <==> PostOfFaults(f, isBuy, p, base)
  {
    hide PostPass, PostFaults;
    OverlapsLeveled(f.book, !isBuy, p);
    PostFaultsIff(f, isBuy, Overlapped(f.book, !isBuy, p), base);
  }

  /** Entering a limit order faults exactly when it, or an overlapping
      order executed on the way, meets a hazardous level. */
  lemma LimitFaultsIff(f: Floor, isBuy: bool, p: nat, id: nat, sz: nat, aon: bool, base: nat)
    requires 0 < p < |f.book|
    ensures LimitPass(f, isBuy, p, id, sz, aon, base).fault <==> LimitFaults(f, isBuy, p, id, sz, aon, base)
  {
    hide PreOf, Crossed, PostOf, PreOfFaults, CrossFaults, PostOfFaults, Rested;
    PreOfFaultsIff(f, isBuy, p, id, sz, aon, base);
    var pre := PreOf(f, isBuy, p, id, sz, aon, base);
    if !pre.fault && pre.left > 0 {
      CrossFaultsIff(pre.f, isBuy, p, id, pre.left, aon, base);
      var m := Crossed(pre.f, isBuy, p, id, pre.left, aon, base);
      if m.left > 0 {
        PostOfFaultsIff(Rested(m.f, isBuy, p, id, m.left, aon), isBuy, p, base);
      }
    }
  }

  ghost predicate MarketFaults(f: Floor, isBuy: bool, id: nat, sz: nat, base: nat)
    requires |f.book| > 1
  {
    var p := Outermost(isBuy, |f.book|);
    || PreOfFaults(f, isBuy, p, id, sz, false, base)
    || var pre := PreOf(f, isBuy, p, id, sz, false, base);
       pre.left > 0 && SendFaults(pre.f, !isBuy, p, pre.left)
  }

  lemma MarketFaultsIff(f: Floor, isBuy: bool, id: nat, sz: nat, base: nat)
    requires |f.book| > 1
    ensures MarketPass(f, isBuy, id, sz, base).fault <==> MarketFaults(f, isBuy, id, sz, base)
  {
    hide PreOf, PreOfFaults, Sent, SendFaults;
    var p := Outermost(isBuy, |f.book|);
    PreOfFaultsIff(f, isBuy, p, id, sz, false, base);
    var pre := PreOf(f, isBuy, p, id, sz, false, base);
    SentFaultsIff(pre.f, !isBuy, p, id, pre.left, base);
  }

  /** No all-or-none order of a side rests in an AON chain at limit or better; nor, if it is a bid, in
      a limit chain there, from where it could step aside. */
  ghost predicate NoAons(book: seq<Level>, bids: bool, limit: nat) {
    forall q :: 0 < q < |book| && InsideOf(bids, q, limit) ==>
      Chain(book[q], AonKind(bids)) == [] && (bids ==> forall b :: b in book[q].limits ==> !IsAon(b))
  }

  lemma {:induction false} NobodyAside(c: seq<Bundle>, p: nat, size: nat)
    requires forall b :: b in c ==> !IsAon(b)
    ensures HitLimits(c, p, size).moved == []
  {
    if c != [] && size >= c[0].sz {
      NobodyAside(c[1..], p, size - c[0].sz);
    }
  }

  lemma NoAonsHit(l: Level, bids: bool, onSide: bool, p: nat, size: nat)
    requires Chain(l, AonKind(bids)) == [] && (bids ==> forall b :: b in l.limits ==> !IsAon(b))
    requires !HitLevel(l, bids, onSide, p, size).fault
    ensures Chain(HitLevel(l, bids, onSide, p, size).level, AonKind(bids)) == []
  {
    if bids {
      NobodyAside(l.limits, p, HitAons([], p, size).left);
    }
  }

  /** Without all-or-none orders in reach matching leaves none there, unless it faults. */
  lemma {:induction false} NoAonsMatched(book: seq<Level>, bids: bool, inside: nat, p: nat, limit: nat, size: nat)
    requires OnBook(|book|, bids, p, limit)
    requires forall q :: 0 < q < |book| && InsideOf(bids, q, limit) ==> Chain(book[q], AonKind(bids)) == []
    requires bids ==> forall q, b ::
      0 < q < |book| && Beyond(bids, p, q) && InsideOf(bids, q, limit) && b in book[q].limits ==> !IsAon(b)
    requires !Match(book, bids, inside, p, limit, size).fault
    ensures var m := Match(book, bids, inside, p, limit, size);
      forall q :: 0 < q < |book| && InsideOf(bids, q, limit) ==> Chain(m.book[q], AonKind(bids)) == []
    decreases if bids then p else |book| - p
  {
    if size != 0 && InsideOf(bids, p, limit) {
      var h := HitLevel(book[p], bids, OnSide(bids, p, inside), p, size);
      NoAonsHit(book[p], bids, OnSide(bids, p, inside), p, size);
      hide HitLevel;
      NoAonsMatched(book[p := h.level], bids, inside, Next(bids, p), limit, h.left);
    }
  }

  /** ... so that nothing overlaps what rests then. */
  lemma NothingThen(f: Floor, isBuy: bool, p: nat, id: nat, sz: nat, aon: bool, base: nat)
    requires 0 < p < |f.book| && NoAons(f.book, !isBuy, p)
    ensures var m := Crossed(f, isBuy, p, id, sz, aon, base);
      !m.fault ==> !PostOfFaults(Rested(m.f, isBuy, p, id, m.left, aon), isBuy, p, base)
  {
    hide Match, Tradable, Looked, SalesOf, Outward;
    var m := Crossed(f, isBuy, p, id, sz, aon, base);
    if !m.fault {
      if Tradable(f, !isBuy, p) && (aon ==> Looked(f, !isBuy, p, sz) == 0) {
        NoAonsMatched(f.book, !isBuy, InsideLevel(f, !isBuy), Outermost(!isBuy, |f.book|), p, sz);
        SettledAons(Matched(f, !isBuy, p, id, sz, base).f, !isBuy);
      }
      hide Crossed;
      RestedAons(m.f, isBuy, p, id, m.left, aon);
      NoOverlaps(Rested(m.f, isBuy, p, id, m.left, aon).book, !isBuy, p);
    }
  }

  lemma SettledAons(f: Floor, bids: bool)
    ensures forall q :: 0 <= q < |f.book| ==>
      Chain(Settled(f).book[q], AonKind(bids)) == Chain(f.book[q], AonKind(bids))
  {
  }

  lemma RestedAons(f: Floor, isBuy: bool, p: nat, id: nat, sz: nat, aon: bool)
    requires 0 < p < |f.book|
    ensures var r := Rested(f, isBuy, p, id, sz, aon);
      && r.queue == f.queue
      && forall q :: 0 <= q < |f.book| ==> Chain(r.book[q], AonKind(!isBuy)) == Chain(f.book[q], AonKind(!isBuy))
  {
  }

  /** With nothing to trade with nothing is traded. */
  lemma UntradableLooked(f: Floor, bids: bool, p: nat, size: nat)
    requires 0 < p < |f.book| && !Tradable(f, bids, p)
    ensures Looked(f, bids, p, size) == size
  {
    hide Match, Left;
    MatchQuiet(f.book, bids, InsideLevel(f, bids), Outermost(bids, |f.book|), p, size);
    MatchLeft(f.book, f.book, bids, InsideLevel(f, bids), Outermost(bids, |f.book|), p, size);
  }

  /** With no opposing all-or-none order in reach the book before tells: the order's own way through
      it meets a hazardous level. For a limit order to sell that the book does not fill whole, bids must
      not step aside either, as they are tried again once it rests. */
  lemma FaultsAlone(f: Floor, isBuy: bool, p: nat, id: nat, sz: nat, aon: bool, base: nat)
    requires 0 < p < |f.book| && Overlapped(f.book, !isBuy, p) == [] && sz > 0
    ensures p == Outermost(isBuy, |f.book|) ==> (MarketFaults(f, isBuy, id, sz, base) <==> SendFaults(f, !isBuy, p, sz))
    ensures Looked(f, !isBuy, p, sz) == 0 || NoAons(f.book, !isBuy, p) ==>
      (LimitFaults(f, isBuy, p, id, sz, aon, base) <==> CrossFaults(f, isBuy, p, sz, aon))
    ensures isBuy ==> NoAons(f.book, !isBuy, p)
  {
    hide Looked, Sent, SendFaults, Tradable, Rested, Settled, Matched, PostOfFaults, NoAons;
    LookedSent(f, !isBuy, p, id, sz, base);
    if NoAons(f.book, !isBuy, p) {
      NothingThen(f, isBuy, p, id, sz, aon, base);
      CrossFaultsIff(f, isBuy, p, id, sz, aon, base);
    }
    if Looked(f, !isBuy, p, sz) == 0 && !Tradable(f, !isBuy, p) {
      UntradableLooked(f, !isBuy, p, sz);
    }
    if isBuy {
      BuysAlone(f.book, p);
    }
  }

  /** No sell overlaps: there is none in a sell AON chain in reach. */
  lemma BuysAlone(book: seq<Level>, p: nat)
    requires 0 < p < |book| && Overlapped(book, false, p) == []
    ensures NoAons(book, false, p)
  {
    forall q | 0 < q < |book| && InsideOf(false, q, p) ensures Chain(book[q], AonKind(false)) == [] {
      if Chain(book[q], AonKind(false)) != [] {
        OverlappedIff(book, false, p, q, Chain(book[q], AonKind(false))[0]);
      }
    }
  }

  /** The order, whatever it is, meets a hazardous level on its way. */
  ghost predicate EnterFaults(f: Floor, t: Ticket, base: nat)
    requires |f.book| > 1 && Acceptable(t, base, |f.book|)
  {
    match t.otype
    case Market => MarketFaults(f, t.isBuy, t.id, t.sz, base)
    case LimitOrder =>
      var p := LevelOf(t.limit, base);
      !(t.cond.FillOrKill? && Killed(f, t.isBuy, p, t.sz, t.cond.partialOk))
        && LimitFaults(f, t.isBuy, p, t.id, t.sz, t.cond.AllOrNone?, base)
    case _ => false
  }

  lemma EnterFaultsIff(f: Floor, t: Ticket, base: nat)
    requires |f.book| > 1 && Acceptable(t, base, |f.book|)
    ensures Entered(f, t, base).fault <==> EnterFaults(f, t, base)
  {
    hide LimitPass, LimitFaults, MarketPass, MarketFaults, Killed;
    if t.otype.Market? {
      MarketFaultsIff(f, t.isBuy, t.id, t.sz, base);
    } else if t.otype.LimitOrder? {
      LimitFaultsIff(f, t.isBuy, LevelOf(t.limit, base), t.id, t.sz, t.cond.AllOrNone?, base);
    }
  }

  /** The turn of a queued order comes that faults. */
  ghost predicate DrainFaults(f: Floor, base: nat, n: nat)
    requires |f.book| > 1
    decreases n
  {
    f.queue != [] && n > 0 && Acceptable(f.queue[0], base, |f.book|) &&
      var f1 := f.(queue := f.queue[1..]);
      || EnterFaults(f1, f.queue[0], base)
      || var r := Entered(f1, f.queue[0], base);
         r.left == 0 && DrainFaults(r.f, base, n - 1)
  }

  lemma {:induction false} DrainFaultsIff(f: Floor, base: nat, n: nat)
    requires |f.book| > 1
    ensures Drained(f, base, n).fault <==> DrainFaults(f, base, n)
    decreases n
  {
    hide Entered, EnterFaults, Acceptable;
    if f.queue != [] && n > 0 && Acceptable(f.queue[0], base, |f.book|) {
      var f1 := f.(queue := f.queue[1..]);
      EnterFaultsIff(f1, f.queue[0], base);
      var r := Entered(f1, f.queue[0], base);
      if !r.fault && r.left == 0 {
        DrainFaultsIff(r.f, base, n - 1);
      }
    }
  }

  /** An order that enters in the window meets a hazardous level on its way. */
  ghost predicate WindowFaults(f: Floor, t: Ticket, base: nat, n: nat)
    requires |f.book| > 1 && Acceptable(t, base, |f.book|)
  {
    var f1 := f.(lastId := f.lastId + 1);
    var t1 := t.(id := f.lastId + 1);
    EnterFaults(f1, t1, base) || (Entered(f1, t1, base).left == 0 && DrainFaults(Entered(f1, t1, base).f, base, n))
  }

  /** A whole window faults exactly when one of the orders that enter in it does. */
  lemma WindowFaultsIff(f: Floor, t: Ticket, base: nat, n: nat)
    requires |f.book| > 1 && Acceptable(t, base, |f.book|)
    ensures Windowed(f, t, base, n).fault <==> WindowFaults(f, t, base, n)
  {
    hide Entered, EnterFaults, Drained, DrainFaults;
    var f1 := f.(lastId := f.lastId + 1);
    var t1 := t.(id := f.lastId + 1);
    EnterFaultsIff(f1, t1, base);
    DrainFaultsIff(Entered(f1, t1, base).f, base, n);
  }
}
