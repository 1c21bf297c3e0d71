/** Overlapping all-or-none orders have their turns: which of them is executed, told by the match
    of the book at its turn, and in which order they come. */
module Turns {
  import opened Ladder
  import opened Matcher
  import opened Desk
  import opened Overlaps
  import opened Reference
  import opened Faults

  /** What sending an overlapping order to the side bids leaves of it. */
  function Lacking(f: Floor, bids: bool, o: Overlap): nat
    requires 0 < o.level < |f.book|
  {
    Match(f.book, bids, InsideLevel(f, bids), Outermost(bids, |f.book|), o.level, o.bundle.sz).left
  }

  lemma LackingLooked(f: Floor, bids: bool, o: Overlap)
    requires 0 < o.level < |f.book|
    ensures Looked(f, bids, o.level, o.bundle.sz) == Lacking(f, bids, o)
  {
    hide Match, Left;
    MatchLeft(f.book, f.book, bids, InsideLevel(f, bids), Outermost(bids, |f.book|), o.level, o.bundle.sz);
  }

  /* ---- before a new order crosses ---- */

  /** The last of the overlapping orders has its turn, while there is size left: it is executed if the
      book alone suffices; or if an all-or-none new order has exactly what it lacks; or if another new
      order has more than that. It then takes from the new order what it lacks, in one sale at the
      level of that. */
  lemma PreTurn(f: Floor, bids: bool, os: seq<Overlap>, p: nat, id: nat, aon: bool, rmndr: nat, base: nat)
    requires Leveled(|f.book|, os) && os != [] && rmndr > 0
    ensures var o := os[|os| - 1];
      var rest := os[..|os| - 1];
      var left := Lacking(f, bids, o);
      var r := Sent(f.(book := Pull(f.book, !bids, o)), bids, o.level, o.bundle.id, o.bundle.sz, base);
      var sale := Sale(base + p - 1, left, o.bundle.id, id);
      var g := if left == 0 then r.f else r.f.(tape := r.f.tape + [sale], last := p, check := true);
      PrePass(f, bids, os, p, id, aon, rmndr, base) ==
        if left == 0 || (aon && left == rmndr) || (!aon && left < rmndr) then
          if r.fault then Passed(r.f, 0, true) else PrePass(g, bids, rest, p, id, aon, rmndr - left, base)
        else PrePass(f, bids, rest, p, id, aon, rmndr, base)
  {
    hide Lacking, Looked, Executed, Closed, Sent, Pull, Leveled;
    var o := os[|os| - 1];
    LastLeveled(|f.book|, os);
    LackingLooked(f, bids, o);
    ExecutedSent(f, bids, o, base);
    ClosedBy(Executed(f, bids, o, base).f, p, o.bundle.id, id, Lacking(f, bids, o), base);
  }

  lemma ExecutedSent(f: Floor, bids: bool, o: Overlap, base: nat)
    requires 0 < o.level < |f.book|
    ensures Executed(f, bids, o, base) ==
      Sent(f.(book := Pull(f.book, !bids, o)), bids, o.level, o.bundle.id, o.bundle.sz, base)
  {
    hide Sent, Pull;
  }

  lemma ClosedBy(f: Floor, p: nat, taker: nat, maker: nat, left: nat, base: nat)
    ensures Closed(f, p, taker, maker, left, base) ==
      if left == 0 then f
      else f.(tape := f.tape + [Sale(base + p - 1, left, taker, maker)], last := p, check := true)
  {
  }

  /** An order that is not all-or-none is never used up before it crosses. */
  lemma {:induction false} PlainUnspent(f: Floor, bids: bool, os: seq<Overlap>, p: nat, id: nat, rmndr: nat, base: nat)
    requires Leveled(|f.book|, os) && rmndr > 0
    ensures var r := PrePass(f, bids, os, p, id, false, rmndr, base); !r.fault ==> r.left > 0
    decreases |os|
  {
    if os != [] {
      PreTurn(f, bids, os, p, id, false, rmndr, base);
      hide PrePass, Lacking, Sent, Pull, Leveled;
      var o := os[|os| - 1];
      var rest := os[..|os| - 1];
      LastLeveled(|f.book|, os);
      var left := Lacking(f, bids, o);
      var r := Sent(f.(book := Pull(f.book, !bids, o)), bids, o.level, o.bundle.id, o.bundle.sz, base);
      var sale := Sale(base + p - 1, left, o.bundle.id, id);
      var g := if left == 0 then r.f else r.f.(tape := r.f.tape + [sale], last := p, check := true);
      if left == 0 || left < rmndr {
        PlainUnspent(g, bids, rest, p, id, rmndr - left, base);
      } else {
        PlainUnspent(f, bids, rest, p, id, rmndr, base);
      }
    }
  }

  /** The floor at the turn of os[k], those behind it that the book sufficed for having been executed. */
  function AtTurn(f: Floor, bids: bool, os: seq<Overlap>, k: nat, base: nat): (r: Passed)
    requires Leveled(|f.book|, os) && k < |os|
    ensures |r.f.book| == |f.book|
  {
    assert forall o :: o in os[k + 1..] ==> o in os;
    PostPass(f, bids, os[k + 1..], base)
  }

  /** At its turn os[k] lacks exactly sz. */
  predicate LacksExactly(f: Floor, bids: bool, os: seq<Overlap>, k: nat, sz: nat, base: nat)
    requires Leveled(|f.book|, os) && k < |os|
  {
    var g := AtTurn(f, bids, os, k, base);
    assert os[k] in os;
    !g.fault && Lacking(g.f, bids, os[k]) == sz
  }

  /** Turns of the orders in front of the last one follow on what that leaves. */
  lemma TurnOn(f: Floor, bids: bool, os: seq<Overlap>, k: nat, base: nat)
    requires Leveled(|f.book|, os) && k + 1 < |os|
    ensures var o := os[|os| - 1];
      var rest := os[..|os| - 1];
      && Leveled(|f.book|, rest) && 0 < o.level < |f.book|
      && var r := Sent(f.(book := Pull(f.book, !bids, o)), bids, o.level, o.bundle.id, o.bundle.sz, base);
      AtTurn(f, bids, os, k, base) ==
        if Lacking(f, bids, o) == 0 then
          if r.fault then Passed(r.f, 0, true) else AtTurn(r.f, bids, rest, k, base)
        else AtTurn(f, bids, rest, k, base)
  {
    var o := os[|os| - 1];
    LastLeveled(|f.book|, os);
    LackingLooked(f, bids, o);
    ExecutedSent(f, bids, o, base);
    hide Lacking, Looked, Executed, Sent, Pull;
    var c := os[k + 1..];
    assert c[..|c| - 1] == os[..|os| - 1][k + 1..] && c[|c| - 1] == o;
  }

  /** After its pass an all-or-none order is filled if and only if it met an order that lacked exactly
      its size; otherwise all of it is left, and the pass has only executed orders that the book
      sufficed for. */
  lemma {:induction false} AonPairs(f: Floor, bids: bool, os: seq<Overlap>, p: nat, id: nat, sz: nat, base: nat)
    requires Leveled(|f.book|, os) && sz > 0
    ensures var r := PrePass(f, bids, os, p, id, true, sz, base);
      !r.fault ==>
        && (r.left == 0 <==> exists k :: 0 <= k < |os| && LacksExactly(f, bids, os, k, sz, base))
        && (r.left > 0 ==> r.left == sz && r.f == PostPass(f, bids, os, base).f)
    decreases |os|
  {
    hide PrePass, PostPass, Lacking, Sent, Pull, Leveled, AtTurn, LacksExactly;
    if os == [] {
      NoTurns(f, bids, p, id, sz, base);
    } else {
      var n := |os| - 1;
      var o, rest := os[n], os[..n];
      LastLeveled(|f.book|, os);
      PreTurn(f, bids, os, p, id, true, sz, base);
      PostTurn(f, bids, os, base);
      FirstTurn(f, bids, os, sz, base);
      var left := Lacking(f, bids, o);
      var r := Sent(f.(book := Pull(f.book, !bids, o)), bids, o.level, o.bundle.id, o.bundle.sz, base);
      var g := if left == 0 then r.f else f;
      if left == sz {
        PreNone(r.f.(tape := r.f.tape + [Sale(base + p - 1, left, o.bundle.id, id)], last := p, check := true), bids,
          rest, p, id, base);
      } else if left != 0 || !r.fault {
        AonPairs(g, bids, rest, p, id, sz, base);
        forall k | 0 <= k < n
          ensures LacksExactly(f, bids, os, k, sz, base) <==> LacksExactly(g, bids, rest, k, sz, base)
        {
          LacksOn(f, bids, os, k, sz, base);
        }
        if k :| 0 <= k < n && LacksExactly(g, bids, rest, k, sz, base) {
          assert LacksExactly(f, bids, os, k, sz, base);
        }
      }
    }
  }

  lemma NoTurns(f: Floor, bids: bool, p: nat, id: nat, sz: nat, base: nat)
    ensures Leveled(|f.book|, []) && PrePass(f, bids, [], p, id, true, sz, base) == Passed(f, sz, false)
    ensures PostPass(f, bids, [], base) == Passed(f, 0, false)
  {
  }

  lemma FirstTurn(f: Floor, bids: bool, os: seq<Overlap>, sz: nat, base: nat)
    requires Leveled(|f.book|, os) && os != []
    ensures 0 < os[|os| - 1].level < |f.book|
    ensures LacksExactly(f, bids, os, |os| - 1, sz, base) <==> Lacking(f, bids, os[|os| - 1]) == sz
  {
    LastLeveled(|f.book|, os);
    assert os[|os|..] == [];
    hide Lacking;
  }

  lemma LacksOn(f: Floor, bids: bool, os: seq<Overlap>, k: nat, sz: nat, base: nat)
    requires Leveled(|f.book|, os) && k + 1 < |os| && sz > 0
    ensures var o := os[|os| - 1];
      var rest := os[..|os| - 1];
      && Leveled(|f.book|, rest) && 0 < o.level < |f.book|
      && var r := Sent(f.(book := Pull(f.book, !bids, o)), bids, o.level, o.bundle.id, o.bundle.sz, base);
      var g := if Lacking(f, bids, o) == 0 then r.f else f;
      (Lacking(f, bids, o) == 0 ==> !r.fault) ==>
        (LacksExactly(f, bids, os, k, sz, base) <==> LacksExactly(g, bids, rest, k, sz, base))
  {
    TurnOn(f, bids, os, k, base);
    assert os[k] in os && os[..|os| - 1][k] == os[k];
    hide AtTurn, Lacking, Sent, Pull;
  }

  lemma PreNone(f: Floor, bids: bool, os: seq<Overlap>, p: nat, id: nat, base: nat)
    requires Leveled(|f.book|, os)
    ensures PrePass(f, bids, os, p, id, true, 0, base) == Passed(f, 0, false)
  {
  }

  /* ---- after it has come to rest ---- */

  /** The last of the overlapping orders has its turn: it is executed if the book suffices. */
  lemma PostTurn(f: Floor, bids: bool, os: seq<Overlap>, base: nat)
    requires Leveled(|f.book|, os) && os != []
    ensures var o := os[|os| - 1];
      var rest := os[..|os| - 1];
      var r := Sent(f.(book := Pull(f.book, !bids, o)), bids, o.level, o.bundle.id, o.bundle.sz, base);
      PostPass(f, bids, os, base) ==
        if Lacking(f, bids, o) == 0 then
          if r.fault then Passed(r.f, 0, true) else PostPass(r.f, bids, rest, base)
        else PostPass(f, bids, rest, base)
  {
    hide Lacking, Looked, Executed, Sent, Pull, Leveled;
    LastLeveled(|f.book|, os);
    LackingLooked(f, bids, os[|os| - 1]);
    ExecutedSent(f, bids, os[|os| - 1], base);
  }

  /* ---- who comes when ---- */

  /** Farther from the limit comes later in the scan, ... */
  lemma {:induction false} OverlappedSorted(book: seq<Level>, bids: bool, p: nat, i: nat, j: nat)
    requires Reaching(|book|, bids, p) && i <= j < |Overlapped(book, bids, p)|
    ensures var os := Overlapped(book, bids, p);
      Beyond(!bids, p, os[i].level) && Beyond(!bids, os[i].level, os[j].level)
    decreases if bids then |book| - p else p
  {
    var here := Tagged(p, Chain(book[p], AonKind(bids)));
    var q := Next(!bids, p);
    if i >= |here| {
      OverlappedSorted(book, bids, q, i - |here|, j - |here|);
    } else if j >= |here| {
      OverlappedSorted(book, bids, q, j - |here|, j - |here|);
    }
  }

  /** From m on os has the orders of chain c at level q, in their order. */
  predicate Together(os: seq<Overlap>, m: nat, q: nat, c: seq<Bundle>) {
    m + |c| <= |os| && forall i :: m <= i < m + |c| ==> os[i] == Overlap(q, c[i - m])
  }

  /** ... and the orders of a level are together, in the order of its chain. */
  lemma {:induction false} OverlappedTogether(book: seq<Level>, bids: bool, p: nat, q: nat) returns (m: nat)
    requires Reaching(|book|, bids, p) && 0 < q < |book| && InsideOf(bids, q, p)
    ensures Together(Overlapped(book, bids, p), m, q, Chain(book[q], AonKind(bids)))
    decreases if bids then |book| - p else p
  {
    hide Together, Tagged;
    var here := Tagged(p, Chain(book[p], AonKind(bids)));
    var rest := Overlapped(book, bids, Next(!bids, p));
    if q == p {
      m := 0;
      TogetherFirst(p, Chain(book[p], AonKind(bids)), rest);
    } else {
      var m0 := OverlappedTogether(book, bids, Next(!bids, p), q);
      m := |here| + m0;
      TogetherOn(here, rest, m0, q, Chain(book[q], AonKind(bids)));
    }
  }

  lemma TogetherFirst(p: nat, c: seq<Bundle>, rest: seq<Overlap>)
    ensures Together(Tagged(p, c) + rest, 0, p, c)
  {
  }

  lemma TogetherOn(here: seq<Overlap>, rest: seq<Overlap>, m: nat, q: nat, c: seq<Bundle>)
    requires Together(rest, m, q, c)
    ensures Together(here + rest, |here| + m, q, c)
  {
  }

  /* ---- crossing ---- */

  /** A new order takes what matching the book gives it; an all-or-none order nothing unless that is
      all of it. */
  lemma CrossedLeft(f: Floor, isBuy: bool, p: nat, id: nat, size: nat, aon: bool, base: nat)
    requires 0 < p < |f.book|
    ensures var m := Match(f.book, !isBuy, InsideLevel(f, !isBuy), Outermost(!isBuy, |f.book|), p, size);
      var r := Crossed(f, isBuy, p, id, size, aon, base);
      if aon && m.left > 0 then r == Passed(f, size, false)
      else r.left == m.left && r.f.tape == f.tape + SalesOf(m.fills, id, base)
  {
    hide Match, Tradable, SalesOf, Outward, Checked, Looked;
    var m := Match(f.book, !isBuy, InsideLevel(f, !isBuy), Outermost(!isBuy, |f.book|), p, size);
    LookedSent(f, !isBuy, p, id, size, base);
    MatchConserves(f.book, !isBuy, InsideLevel(f, !isBuy), Outermost(!isBuy, |f.book|), p, size);
    TapeKept(Matched(f, !isBuy, p, id, size, base).f);
    if !Tradable(f, !isBuy, p) {
      UntradableQuiet(f, !isBuy, p, size);
      NoSales(id, base);
      assert f.tape + [] == f.tape;
    }
  }

  lemma TapeKept(f: Floor)
    ensures Settled(f).tape == f.tape
  {
  }

  lemma UntradableQuiet(f: Floor, bids: bool, p: nat, size: nat)
    requires 0 < p < |f.book| && !Tradable(f, bids, p)
    ensures Match(f.book, bids, InsideLevel(f, bids), Outermost(bids, |f.book|), p, size) ==
      Outcome(f.book, [], size, false)
  {
    hide Match;
    MatchQuiet(f.book, bids, InsideLevel(f, bids), Outermost(bids, |f.book|), p, size);
  }
}
