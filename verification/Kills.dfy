/** What an order that the book cannot fill leaves: fill-or-kill orders that may be filled in part, and
    market orders. */
module Kills {
  import opened Ladder
  import opened Matcher
  import opened Priority
  import opened Desk
  import opened Overlaps
  import opened Reference
  import opened Faults
  import opened Turns

  /* ---- matching that gives nothing ---- */

  lemma {:induction false} AonsNothing(c: seq<Bundle>, p: nat, size: nat)
    requires size > 0 && forall b :: b in c ==> b.sz > 0
    ensures var h := HitAons(c, p, size);
      (h.left == size <==> forall b :: b in c ==> b.sz > size) && (h.left == size ==> h.fills == [])
  {
    if c != [] {
      assert c[0] in c && forall b :: b in c <==> b == c[0] || b in c[1..];
      if size < c[0].sz {
        AonsNothing(c[1..], p, size);
      } else {
        var h := HitAons(c[1..], p, size - c[0].sz);
        assert h.left + Total(h.fills) == size - c[0].sz;
      }
    }
  }

  lemma {:induction false} LimitsNothing(c: seq<Bundle>, p: nat, size: nat)
    requires size > 0 && forall b :: b in c ==> b.sz > 0
    ensures HitLimits(c, p, size).left == size <==> forall b :: b in c ==> IsAon(b) && b.sz > size
  {
    if c != [] {
      assert c[0] in c && forall b :: b in c <==> b == c[0] || b in c[1..];
      if size < c[0].sz {
        if IsAon(c[0]) {
          LimitsNothing(c[1..], p, size);
        }
      } else {
        var h := HitLimits(c[1..], p, size - c[0].sz);
        assert h.left + Total(h.fills) == size - c[0].sz;
      }
    }
  }

  /** Every order of a level that can be hit is all-or-none, and too large for size. */
  predicate TooLarge(l: Level, bids: bool, onSide: bool, size: nat) {
    && (forall b :: b in Chain(l, AonKind(bids)) ==> b.sz > size)
    && (onSide ==> forall b :: b in l.limits ==> IsAon(b) && b.sz > size)
  }

  lemma LevelNothing(l: Level, bids: bool, onSide: bool, p: nat, size: nat)
    requires size > 0 && Sized(Chain(l, AonKind(bids))) && Sized(l.limits)
    ensures HitLevel(l, bids, onSide, p, size).left == size <==> TooLarge(l, bids, onSide, size)
  {
    var a := HitAons(Chain(l, AonKind(bids)), p, size);
    AonsNothing(Chain(l, AonKind(bids)), p, size);
    HitLevelConserves(l, bids, onSide, p, size);
    var h := HitLimits(l.limits, p, a.left);
    assert h.left + Total(h.fills) == a.left;
    if a.left == size {
      LimitsNothing(l.limits, p, size);
    }
  }

  /** No order within the limit can trade with one of that size. */
  predicate NoneTakes(book: seq<Level>, bids: bool, inside: nat, p: nat, limit: nat, size: nat) {
    forall r :: 0 < r < |book| && Beyond(bids, p, r) && InsideOf(bids, r, limit) ==>
      TooLarge(book[r], bids, OnSide(bids, r, inside), size)
  }

  /** A match gives nothing exactly when every order in reach is all-or-none and too large. */
  lemma {:induction false} MatchNothing(book: seq<Level>, bids: bool, inside: nat, p: nat, limit: nat, size: nat)
    requires OnBook(|book|, bids, p, limit) && AllSized(book) && size > 0
    ensures Left(book, bids, inside, p, limit, size) == size <==> NoneTakes(book, bids, inside, p, limit, size)
    decreases if bids then p else |book| - p
  {
    hide TooLarge, HitLevel;
    if InsideOf(bids, p, limit) {
      if !bids && p == |book| {
      } else {
        SizedLevel(book, p, bids);
        LevelNothing(book[p], bids, OnSide(bids, p, inside), p, size);
        HitLevelConserves(book[p], bids, OnSide(bids, p, inside), p, size);
        MatchNothing(book, bids, inside, Next(bids, p), limit, size);
      }
    }
  }

  lemma SizedLevel(book: seq<Level>, p: nat, bids: bool)
    requires AllSized(book) && p < |book|
    ensures Sized(Chain(book[p], AonKind(bids))) && Sized(book[p].limits)
  {
    assert Sized(Chain(book[p], Limits));
  }

  /* ---- the tape grows ---- */

  predicate Grows(f: Floor, g: Floor) {
    |f.tape| <= |g.tape| && g.tape[..|f.tape|] == f.tape
  }

  lemma SentGrows(f: Floor, bids: bool, p: nat, id: nat, size: nat, base: nat)
    requires 0 < p < |f.book|
    ensures var r := Sent(f, bids, p, id, size, base); Grows(f, r.f) && (r.left < size ==> |r.f.tape| > |f.tape|)
  {
    hide Match, SalesOf, Outward, Checked;
    var m := Match(f.book, bids, InsideLevel(f, bids), Outermost(bids, |f.book|), p, size);
    MatchConserves(f.book, bids, InsideLevel(f, bids), Outermost(bids, |f.book|), p, size);
    SalesCount(m.fills, id, base);
    TapeKept(Matched(f, bids, p, id, size, base).f);
  }

  predicate SizedOverlaps(os: seq<Overlap>) {
    forall o :: o in os ==> o.bundle.sz > 0
  }

  /** A turn of an overlapping order trades, or changes nothing. */
  lemma TurnGrows(f: Floor, bids: bool, o: Overlap, p: nat, id: nat, left: nat, base: nat)
    requires 0 < o.level < |f.book| && o.bundle.sz > 0 && left == Looked(f, bids, o.level, o.bundle.sz)
    ensures var r := Executed(f, bids, o, base);
      && Grows(f, r.f) && (left == 0 ==> |r.f.tape| > |f.tape|)
      && Grows(f, Closed(r.f, p, o.bundle.id, id, left, base))
      && |Closed(r.f, p, o.bundle.id, id, left, base).tape| > |f.tape|
  {
    hide Sent, Pull, Looked;
    var f1 := f.(book := Pull(f.book, !bids, o));
    SentGrows(f1, bids, o.level, o.bundle.id, o.bundle.sz, base);
    ExecutedLeft(f, bids, o, base);
  }

  lemma {:induction false} PreGrows(f: Floor, bids: bool, os: seq<Overlap>, p: nat, id: nat, aon: bool, rmndr: nat,
          base: nat)
    requires Leveled(|f.book|, os) && SizedOverlaps(os)
    ensures var r := PrePass(f, bids, os, p, id, aon, rmndr, base);
      Grows(f, r.f) && (r == Passed(f, rmndr, false) || r.fault || |r.f.tape| > |f.tape|)
    decreases |os|
  {
    hide Looked, Executed, Closed, Suffices, Leveled;
    if os != [] && rmndr > 0 {
      var o := os[|os| - 1];
      var rest := os[..|os| - 1];
      LastLeveled(|f.book|, os);
      assert o in os && SizedOverlaps(rest);
      var left := Looked(f, bids, o.level, o.bundle.sz);
      if Suffices(aon, left, rmndr) {
        FitsRest(aon, left, rmndr);
        var r := Executed(f, bids, o, base);
        TurnGrows(f, bids, o, p, id, left, base);
        if !r.fault {
          PreGrows(Closed(r.f, p, o.bundle.id, id, left, base), bids, rest, p, id, aon, rmndr - left, base);
        }
      } else {
        PreGrows(f, bids, rest, p, id, aon, rmndr, base);
      }
    }
  }

  lemma {:induction false} PostGrows(f: Floor, bids: bool, os: seq<Overlap>, base: nat)
    requires Leveled(|f.book|, os)
    ensures Grows(f, PostPass(f, bids, os, base).f)
    decreases |os|
  {
    hide Looked, Sent, Pull, Leveled;
    if os != [] {
      var o := os[|os| - 1];
      LastLeveled(|f.book|, os);
      if Looked(f, bids, o.level, o.bundle.sz) == 0 {
        var r := Executed(f, bids, o, base);
        SentGrows(f.(book := Pull(f.book, !bids, o)), bids, o.level, o.bundle.id, o.bundle.sz, base);
        if !r.fault {
          PostGrows(r.f, bids, os[..|os| - 1], base);
        }
      } else {
        PostGrows(f, bids, os[..|os| - 1], base);
      }
    }
  }

  lemma OverlapsSized(book: seq<Level>, bids: bool, p: nat)
    requires Reaching(|book|, bids, p) && AllSized(book)
    ensures SizedOverlaps(Overlapped(book, bids, p))
  {
    forall o | o in Overlapped(book, bids, p) ensures o.bundle.sz > 0 {
      OverlappedIff(book, bids, p, o.level, o.bundle);
      SizedLevel(book, o.level, bids);
    }
  }

  /** A limit order that is not all-or-none trades, or brings others to trade, if matching it would
      give it anything. */
  lemma LimitGrows(f: Floor, isBuy: bool, p: nat, id: nat, sz: nat, base: nat)
    requires 0 < p < |f.book| && AllSized(f.book) && Looked(f, !isBuy, p, sz) < sz
    ensures var r := LimitPass(f, isBuy, p, id, sz, false, base); !r.fault ==> |r.f.tape| > |f.tape|
  {
    hide Looked, PrePass, Overlapped, Crossed, PostPass, Rested, AllSized;
    OverlapsLeveled(f.book, !isBuy, p);
    OverlapsSized(f.book, !isBuy, p);
    PreGrows(f, isBuy, Overlapped(f.book, !isBuy, p), p, id, false, sz, base);
    var pre := PreOf(f, isBuy, p, id, sz, false, base);
    if !pre.fault && pre.left > 0 {
      var m := Crossed(pre.f, isBuy, p, id, pre.left, false, base);
      CrossGrows(pre.f, isBuy, p, id, pre.left, base);
      if m.left > 0 {
        RestGrows(m.f, isBuy, p, id, m.left, base);
      }
    }
  }

  lemma CrossGrows(f: Floor, isBuy: bool, p: nat, id: nat, size: nat, base: nat)
    requires 0 < p < |f.book|
    ensures var r := Crossed(f, isBuy, p, id, size, false, base);
      Grows(f, r.f) && (Looked(f, !isBuy, p, size) < size ==> |r.f.tape| > |f.tape|)
  {
    hide Looked, Sent, Tradable;
    SentGrows(f, !isBuy, p, id, size, base);
    LookedSent(f, !isBuy, p, id, size, base);
    if !Tradable(f, !isBuy, p) {
      UntradableLooked(f, !isBuy, p, size);
    }
  }

  lemma RestGrows(f: Floor, isBuy: bool, p: nat, id: nat, sz: nat, base: nat)
    requires 0 < p < |f.book|
    ensures Grows(f, PostOf(Rested(f, isBuy, p, id, sz, false), isBuy, p, base).f)
  {
    var g := Rested(f, isBuy, p, id, sz, false);
    assert g.tape == f.tape;
    hide PostPass, Overlapped, Rested;
    OverlapsLeveled(g.book, !isBuy, p);
    PostGrows(g, isBuy, Overlapped(g.book, !isBuy, p), base);
  }

  /* ---- killed or not ---- */

  /** One that may be filled in part is killed without trace if and only if no order in reach could
      trade with it; otherwise it enters, and unless its way meets a hazardous level something trades. */
  lemma FokAny(f: Floor, t: Ticket, base: nat)
    requires |f.book| > 1 && Acceptable(t, base, |f.book|) && t.otype.LimitOrder? && t.cond == FillOrKill(true)
    requires AllSized(f.book)
    ensures var p, bids := LevelOf(t.limit, base), !t.isBuy;
      var r := Entered(f, t, base);
      if NoneTakes(f.book, bids, InsideLevel(f, bids), Outermost(bids, |f.book|), p, t.sz) then r == Passed(f, 0, false)
      else r == LimitPass(f, t.isBuy, p, t.id, t.sz, false, base).(left := 0) && (!r.fault ==> |r.f.tape| > |f.tape|)
  {
    hide LimitPass, Left, NoneTakes, AllSized;
    var p, bids := LevelOf(t.limit, base), !t.isBuy;
    MatchNothing(f.book, bids, InsideLevel(f, bids), Outermost(bids, |f.book|), p, t.sz);
    if Looked(f, bids, p, t.sz) < t.sz {
      LimitGrows(f, t.isBuy, p, t.id, t.sz, base);
    }
  }

  /* ---- market orders ---- */

  /** With size left over nothing is left on the side it was sent to: no limit order at all, and only
      all-or-none orders larger than what was left. */
  lemma SentExhausts(f: Floor, bids: bool, id: nat, size: nat, base: nat)
    requires |f.book| > 1
    ensures var r := Sent(f, bids, Outermost(!bids, |f.book|), id, size, base);
      r.left > 0 && !r.fault ==> forall q :: 0 < q < |f.book| ==>
        && (OnSide(bids, q, InsideLevel(r.f, bids)) ==> r.f.book[q].limits == [])
        && forall b :: b in Chain(r.f.book[q], AonKind(bids)) ==> b.sz > r.left
  {
    hide Match, SalesOf, Checked, Outward, LastLevel;
    var p, last := Outermost(bids, |f.book|), Outermost(!bids, |f.book|);
    var g := Matched(f, bids, last, id, size, base).f;
    SettledChains(g);
    forall q | 0 < q < |f.book| ensures Beyond(bids, p, q) && InsideOf(bids, q, last) {
    }
    var r := Sent(f, bids, last, id, size, base);
    if r.left > 0 && !r.fault {
      forall q | 0 < q < |f.book|
        ensures OnSide(bids, q, InsideLevel(r.f, bids)) ==> r.f.book[q].limits == []
        ensures forall b :: b in Chain(r.f.book[q], AonKind(bids)) ==> b.sz > r.left
      {
        MatchMaximal(f.book, bids, InsideLevel(f, bids), p, last, size, q);
      }
    }
  }

  /** A check leaves the inside and all chains but those of the stops. */
  lemma SettledChains(f: Floor)
    ensures var g := Settled(f);
      && g.bid == f.bid && g.ask == f.ask
      && forall q :: 0 <= q < |f.book| ==>
        g.book[q].limits == f.book[q].limits && g.book[q].aonBuys == f.book[q].aonBuys
          && g.book[q].aonSells == f.book[q].aonSells
  {
    hide DueStops;
  }

  /** A market order falls short only of a book that has nothing more for it. */
  lemma MarketExhausts(f: Floor, isBuy: bool, id: nat, sz: nat, base: nat)
    requires |f.book| > 1
    ensures var r := MarketPass(f, isBuy, id, sz, base);
      r.left > 0 && !r.fault ==> forall q :: 0 < q < |f.book| ==>
        && (OnSide(!isBuy, q, InsideLevel(r.f, !isBuy)) ==> r.f.book[q].limits == [])
        && forall b :: b in Chain(r.f.book[q], AonKind(!isBuy)) ==> b.sz > r.left
  {
    hide PreOf, Sent;
    var pre := PreOf(f, isBuy, Outermost(isBuy, |f.book|), id, sz, false, base);
    SentExhausts(pre.f, !isBuy, id, pre.left, base);
  }
}
