/** One-cancels-other pairs entering a book: when both orders trade or are triggered. */
module OneCancels {
  import opened Ladder
  import opened Matcher
  import opened Priority
  import opened Desk
  import opened Overlaps
  import opened Sweep
  import opened Reference
  import opened Plain

  /** A new order enters under the next id. */
  ghost function Enters(f: Floor, t: Ticket, base: nat): Passed
    requires |f.book| > 1 && Acceptable(t, base, |f.book|)
  {
    Entered(f.(lastId := f.lastId + 1), t.(id := f.lastId + 1), base)
  }

  /** The ids of the orders in the book were given out. */
  ghost predicate IdsUpTo(book: seq<Level>, n: nat) {
    forall p, k, b :: 0 <= p < |book| && b in Chain(book[p], k) ==> b.id <= n
  }

  /** What holds of a book without all-or-none orders between windows. */
  ghost predicate Orderly(f: Floor) {
    PlainBook(f.book) && AllSized(f.book) && IdsUpTo(f.book,
      f.lastId) && !f.check && Snug(f) && 0 < f.ask <= |f.book| && f.highSellStop < |f.book|
  }

  /** What the source checks of a pair: no market orders, no limit orders that would trade with
      each other or have the same price, no stops at the same price. */
  predicate AcceptablePair(first: Ticket, second: Ticket, base: nat, n: nat) {
    && Acceptable(first, base, n) && Acceptable(second, base, n)
    && first.cond.Plain? && second.cond.Plain? && !first.otype.Market? && !second.otype.Market?
    && (first.otype.LimitOrder? && second.otype.LimitOrder? ==>
          && first.limit != second.limit
          && (first.isBuy && !second.isBuy ==> first.limit < second.limit)
          && (!first.isBuy && second.isBuy ==> first.limit > second.limit))
    && (StopTicket(first) && StopTicket(second) ==> first.stop != second.stop)
  }

  predicate StopTicket(t: Ticket) {
    t.otype.StopOrder? || t.otype.StopLimit?
  }

  /** From f to g the order id traded. */
  ghost predicate Sold(f: Floor, g: Floor, id: nat) {
    |f.tape| <= |g.tape| && exists s :: s in g.tape[|f.tape|..] && (s.taker == id || s.maker == id)
  }

  ghost predicate RestsAsStop(f: Floor, id: nat) {
    exists p, b :: 0 <= p < |f.book| && b in f.book[p].stops && b.id == id
  }

  /** From f to g the order id traded or, being a stop, was triggered. */
  ghost predicate Touched(f: Floor, g: Floor, id: nat) {
    Sold(f, g, id) || (RestsAsStop(f, id) && !RestsAsStop(g, id))
  }

  /** The first order rests without trading, so the second enters, and both are touched then. */
  ghost predicate Spoilt(f: Floor, first: Ticket, second: Ticket, base: nat)
    requires |f.book| > 1 && AcceptablePair(first, second, base, |f.book|)
  {
    var r := Enters(f, first, base);
    r.f.tape == f.tape &&
      var g := Enters(r.f, second, base).f;
      Touched(r.f, g, f.lastId + 1) && Touched(r.f, g, r.f.lastId + 1)
  }

  /** The levels that a check for stops takes out once the first order rests as a stop at q and
      the last trade was at last. */
  predicate Taken(f: Floor, isBuy: bool, q: nat, last: nat) {
    if isBuy then q <= last || last <= q <= f.highSellStop else last <= q || f.lowBuyStop <= q <= last
  }

  /** The level the last trade is at, if any, when an order is sent to a side of the book. */
  function Reached(f: Floor, bids: bool, p: nat, sz: nat): nat
    requires 0 < p < |f.book|
  {
    LastLevel(Match(f.book, bids, InsideLevel(f, bids), Outermost(bids, |f.book|), p, sz).fills, f.last)
  }

  /** The first order is a stop and the second a limit order that trades on entry, so far that the
      check for stops takes out the level of the first. */
  predicate Spoils(f: Floor, first: Ticket, second: Ticket, base: nat)
    requires |f.book| > 1 && AcceptablePair(first, second, base, |f.book|)
  {
    StopTicket(first) && second.otype.LimitOrder? &&
      var p := LevelOf(second.limit, base);
      && Looked(f, !second.isBuy, p, second.sz) < second.sz
      && Taken(f, first.isBuy, LevelOf(first.stop, base), Reached(f, !second.isBuy, p, second.sz))
  }

  /* ---- a stop enters ---- */

  function StopBundle(t: Ticket, id: nat): Bundle {
    Stop(id, t.sz, t.isBuy, if t.otype.StopLimit? then t.limit else 0)
  }

  lemma StopEnters(f: Floor, t: Ticket, base: nat)
    requires |f.book| > 1 && Acceptable(t, base, |f.book|) && StopTicket(t) && Orderly(f)
    ensures var q := LevelOf(t.stop, base);
      var g := Enters(f, t, base).f;
      && 0 < q < |f.book| && g == StopRested(f.(lastId := f.lastId + 1), q, StopBundle(t, f.lastId + 1))
      && g.tape == f.tape && g.lastId == f.lastId + 1 && Orderly(g)
      && (forall r :: 0 <= r < |f.book| ==> g.book[r].limits == f.book[r].limits)
      && (forall r, b :: 0 <= r < |f.book| && b in g.book[r].stops && b.id == f.lastId + 1 ==> r == q)
      && StopBundle(t, f.lastId + 1) in g.book[q].stops
  {
    var q := LevelOf(t.stop, base);
    var b := StopBundle(t, f.lastId + 1);
    var book := Pushed(f.book, q, Stops, b);
    PlainStopped(f.book, q, b);
    PushedKnown(f.book, f.lastId, q, Stops, b);
    assert book[q].stops == f.book[q].stops + [b];
    KnownChains(f.book, f.lastId);
  }

  lemma KnownChains(book: seq<Level>, n: nat)
    requires IdsUpTo(book, n)
    ensures forall r, b :: 0 <= r < |book| && (b in book[r].stops || b in book[r].limits) ==> b.id <= n
  {
    forall r, b | 0 <= r < |book| && (b in book[r].stops || b in book[r].limits) ensures b.id <= n {
      assert b in Chain(book[r], Stops) || b in Chain(book[r], Limits);
    }
  }

  lemma PushedKnown(book: seq<Level>, n: nat, p: nat, k: Kind, b: Bundle)
    requires IdsUpTo(book, n) && AllSized(book) && p < |book| && b.id == n + 1 && b.sz > 0
    ensures IdsUpTo(Pushed(book, p, k, b), n + 1) && AllSized(Pushed(book, p, k, b))
  {
    var book' := Pushed(book, p, k, b);
    forall r, k', x | 0 <= r < |book| && x in Chain(book'[r], k') ensures x.id <= n + 1 && x.sz > 0 {
      if r == p && k' == k {
        assert x in Chain(book[p], k) || x == b;
      }
      assert Sized(Chain(book[r], k'));
      assert x in Chain(book[r], k') || x == b;
    }
  }

  /* ---- a limit order enters ---- */

  /** The trades of a limit order that enters. */
  function FillsOf(f: Floor, t: Ticket, base: nat): seq<Fill>
    requires |f.book| > 1 && Acceptable(t, base, |f.book|) && t.otype.LimitOrder?
  {
    Match(f.book, !t.isBuy, InsideLevel(f, !t.isBuy), Outermost(!t.isBuy, |f.book|), LevelOf(t.limit, base), t.sz).fills
  }

  lemma LimitIs(f: Floor, t: Ticket, base: nat)
    requires |f.book| > 1 && Acceptable(t, base, |f.book|) && t.otype.LimitOrder? && t.cond.Plain? && Orderly(f)
    ensures var p := LevelOf(t.limit, base);
      var f1 := f.(lastId := f.lastId + 1);
      var r := Sent(f1, !t.isBuy, p, f.lastId + 1, t.sz, base);
      Enters(f, t, base).f == ThenRests(r, t.isBuy, p, f.lastId + 1).f
  {
    hide LimitPass, Sent, PlainBook, AllSized, IdsUpTo, ThenRests;
    PlainLimit(f.(lastId := f.lastId + 1), t.isBuy, LevelOf(t.limit, base), f.lastId + 1, t.sz, base);
  }

  /** The tape and the stops once a limit order has entered: its trades, and the levels swept
      if there were any. */
  lemma LimitEnters(f: Floor, t: Ticket, base: nat)
    requires |f.book| > 1 && Acceptable(t, base, |f.book|) && t.otype.LimitOrder? && t.cond.Plain? && Orderly(f)
    ensures var g := Enters(f, t, base).f;
      var fills := FillsOf(f, t, base);
      var last := LastLevel(fills, f.last);
      && |g.book| == |f.book| && g.tape == f.tape + SalesOf(fills, f.lastId + 1, base)
      && (fills != [] <==> Looked(f, !t.isBuy, LevelOf(t.limit, base), t.sz) < t.sz)
      && forall r :: 0 <= r < |f.book| ==>
           g.book[r].stops == if fills != [] && (f.lowBuyStop <= r <= last || last <= r <= f.highSellStop) then []
             else f.book[r].stops
  {
    hide Match, Sent, Entered, Looked, PlainBook, AllSized, IdsUpTo, Rested, SalesOf;
    var p := LevelOf(t.limit, base);
    var f1 := f.(lastId := f.lastId + 1);
    LimitIs(f, t, base);
    SoldSome(f, !t.isBuy, p, t.sz);
    MatchFrame(f.book, !t.isBuy, InsideLevel(f, !t.isBuy), Outermost(!t.isBuy, |f.book|), p, t.sz);
    SentParts(f1, !t.isBuy, p, f1.lastId, t.sz, base);
    var r := Sent(f1, !t.isBuy, p, f1.lastId, t.sz, base);
    RestedParts(r.f, t.isBuy, p, f1.lastId, r.left);
  }

  lemma SoldSome(f: Floor, bids: bool, p: nat, sz: nat)
    requires 0 < p < |f.book| && AllSized(f.book)
    ensures Match(f.book, bids, InsideLevel(f, bids), Outermost(bids, |f.book|), p, sz).fills != [] <==>
      Looked(f, bids, p, sz) < sz
  {
    hide Match, Left, AllSized;
    MatchConserves(f.book, bids, InsideLevel(f, bids), Outermost(bids, |f.book|), p, sz);
    MatchLeft(f.book, f.book, bids, InsideLevel(f, bids), Outermost(bids, |f.book|), p, sz);
    SomeSold(f, bids, p, sz);
  }

  lemma SentParts(f: Floor, bids: bool, p: nat, id: nat, sz: nat, base: nat)
    requires 0 < p < |f.book| && !f.check
    ensures var m := Match(f.book, bids, InsideLevel(f, bids), Outermost(bids, |f.book|), p, sz);
      var last := LastLevel(m.fills, f.last);
      var g := Sent(f, bids, p, id, sz, base).f;
      && g.tape == f.tape + SalesOf(m.fills, id, base)
      && forall r :: 0 <= r < |f.book| ==>
           g.book[r].stops == if m.fills != [] && (f.lowBuyStop <= r <= last || last <= r <= f.highSellStop) then []
             else m.book[r].stops
  {
    hide Match, SalesOf, SweptUp, SweptDown, Tickets, Outward;
  }

  lemma RestedParts(f: Floor, isBuy: bool, p: nat, id: nat, sz: nat)
    requires 0 < p < |f.book|
    ensures var g := Rested(f, isBuy, p, id, sz, false);
      |g.book| == |f.book| && g.tape == f.tape && forall r :: 0 <= r < |f.book| ==> g.book[r].stops == f.book[r].stops
  {
  }

  /** Trades have sizes. */
  lemma SomeSold(f: Floor, bids: bool, p: nat, sz: nat)
    requires 0 < p < |f.book| && AllSized(f.book)
    ensures var m := Match(f.book, bids, InsideLevel(f, bids), Outermost(bids, |f.book|), p, sz);
      m.fills != [] ==> Total(m.fills) > 0
  {
    hide Match, AllSized, Fits;
    var m := Match(f.book, bids, InsideLevel(f, bids), Outermost(bids, |f.book|), p, sz);
    if m.fills != [] {
      MatchFits(f.book, f.book, bids, InsideLevel(f, bids), Outermost(bids, |f.book|), p, sz, m.fills[0]);
      assert m.fills[0].size > 0 by {
        FitSized(f.book, bids, InsideLevel(f, bids), m.fills[0]);
      }
    }
  }

  lemma FitSized(book: seq<Level>, bids: bool, inside: nat, x: Fill)
    requires Fits(book, bids, inside, x)
    ensures x.size > 0
  {
  }

  lemma {:induction false} SalesAre(fills: seq<Fill>, taker: nat, base: nat, s: Sale)
    requires s in SalesOf(fills, taker, base)
    ensures s.taker == taker && exists x :: x in fills && x.maker == s.maker
  {
    if s in SalesOf(fills[1..], taker, base) {
      SalesAre(fills[1..], taker, base, s);
      var x :| x in fills[1..] && x.maker == s.maker;
      assert x in fills;
    } else {
      assert fills[0].maker == s.maker;
    }
  }

  /** Who trades in the new part of a tape: the taker, and the makers of the fills. */
  lemma SoldIff(f: Floor, g: Floor, fills: seq<Fill>, taker: nat, base: nat)
    requires g.tape == f.tape + SalesOf(fills, taker, base)
    ensures Sold(f, g, taker) <==> fills != []
    ensures forall id :: id != taker && Sold(f, g, id) ==> exists x :: x in fills && x.maker == id
  {
    var sales := SalesOf(fills, taker, base);
    assert g.tape[|f.tape|..] == sales;
    if fills != [] {
      assert sales[0] in sales && sales[0].taker == taker;
    }
    forall id | id != taker && Sold(f, g, id) ensures exists x :: x in fills && x.maker == id {
      var s :| s in sales && (s.taker == id || s.maker == id);
      SalesAre(fills, taker, base, s);
    }
  }

  /** A maker rests in a limit chain of the side being hit, within the limit. */
  lemma MakerRests(f: Floor, bids: bool, p: nat, sz: nat, x: Fill)
    requires 0 < p < |f.book| && AllSized(f.book) && PlainBook(f.book)
    requires x in Match(f.book, bids, InsideLevel(f, bids), Outermost(bids, |f.book|), p, sz).fills
    ensures 0 < x.level < |f.book| && InsideOf(bids, x.level, p) && OnSide(bids, x.level, InsideLevel(f, bids))
    ensures exists b :: b in f.book[x.level].limits && b.id == x.maker && x.size <= b.sz && x.size > 0
  {
    hide Match, AllSized;
    MatchFits(f.book, f.book, bids, InsideLevel(f, bids), Outermost(bids, |f.book|), p, sz, x);
    assert Chain(f.book[x.level], AonKind(bids)) == [];
  }

  /* ---- the first order is a stop ---- */

  lemma NotAmong(f: Floor, id: nat)
    requires IdsUpTo(f.book, f.lastId) && id > f.lastId
    ensures !RestsAsStop(f, id)
    ensures forall r, b :: 0 <= r < |f.book| && b in f.book[r].limits ==> b.id != id
  {
    KnownChains(f.book, f.lastId);
  }

  lemma StopThenLimit(f: Floor, first: Ticket, second: Ticket, base: nat)
    requires |f.book| > 1 && AcceptablePair(first, second, base, |f.book|) && Orderly(f) && StopTicket(first)
      && second.otype.LimitOrder?
    ensures Spoilt(f, first, second, base) <==> Spoils(f, first, second, base)
  {
    hide Entered, PlainBook, AllSized, IdsUpTo, Match, Looked, SalesOf, StopRested;
    var id1 := f.lastId + 1;
    var q := LevelOf(first.stop, base);
    StopEnters(f, first, base);
    var g := Enters(f, first, base).f;
    StopWindows(f, q, StopBundle(first, id1));
    SameLook(f, g, second, base);
    LimitEnters(g, second, base);
    var h := Enters(g, second, base).f;
    var fills := FillsOf(g, second, base);
    var last := LastLevel(fills, g.last);
    SoldIff(g, h, fills, id1 + 1, base);
    NotAmong(g, id1 + 1);
    NotAmong(f, id1);
    assert !Sold(g, h, id1) by {
      if Sold(g, h, id1) {
        var x :| x in fills && x.maker == id1;
        MakerRests(g, !second.isBuy, LevelOf(second.limit, base), second.sz, x);
      }
    }
    assert RestsAsStop(g, id1);
    assert RestsAsStop(h, id1) <==> h.book[q].stops != [] by {
      if h.book[q].stops != [] {
        assert StopBundle(first, id1) in h.book[q].stops;
      } else {
        forall p, b | 0 <= p < |h.book| && b in h.book[p].stops ensures b.id != id1 {
          assert b in g.book[p].stops;
        }
      }
    }
  }

  lemma StopWindows(f: Floor, q: nat, b: Bundle)
    requires 0 < q < |f.book| && b.Stop?
    ensures var g := StopRested(f.(lastId := f.lastId + 1), q, b);
      && g.last == f.last && g.bid == f.bid && g.ask == f.ask
      && forall last: nat :: (g.lowBuyStop <= q <= last || last <= q <= g.highSellStop) <==> Taken(f, b.isBuy, q, last)
  {
  }

  /** A stop makes no difference to what trades. */
  lemma SameLook(f: Floor, g: Floor, t: Ticket, base: nat)
    requires |f.book| > 1 && |g.book| == |f.book| && Acceptable(t, base, |f.book|) && t.otype.LimitOrder?
      && g.bid == f.bid && g.ask == f.ask && g.last == f.last
    requires PlainBook(f.book) && PlainBook(g.book) && forall r :: 0 <= r < |f.book| ==>
      g.book[r].limits == f.book[r].limits
    ensures FillsOf(g, t, base) == FillsOf(f, t, base)
    ensures Looked(g, !t.isBuy, LevelOf(t.limit, base), t.sz) == Looked(f, !t.isBuy, LevelOf(t.limit, base), t.sz)
  {
    hide Match, Left;
    var bids := !t.isBuy;
    var p := LevelOf(t.limit, base);
    FillsSame(f.book, g.book, bids, InsideLevel(f, bids), Outermost(bids, |f.book|), p, t.sz);
    assert forall r :: 0 < r < |f.book| ==> Chain(g.book[r], AonKind(bids)) == [] == Chain(f.book[r], AonKind(bids));
    LeftSame(f.book, g.book, bids, InsideLevel(f, bids), Outermost(bids, |f.book|), p, t.sz);
  }

  lemma LevelSame(l: Level, l': Level, bids: bool, onSide: bool, p: nat, size: nat)
    requires l.aonBuys == [] && l.aonSells == [] && PlainChain(l.limits) && size > 0
    requires l'.aonBuys == [] && l'.aonSells == [] && l'.limits == l.limits
    ensures var h := HitLevel(l, bids, onSide, p, size);
      var h' := HitLevel(l', bids, onSide, p, size);
      && h'.fills == h.fills && h'.left == h.left && h'.level.limits == h.level.limits && PlainChain(h.level.limits)
      && h.level.aonBuys == [] && h.level.aonSells == [] && h'.level.aonBuys == [] && h'.level.aonSells == []
  {
    HitLevelPlain(l, bids, onSide, p, size);
    HitLevelPlain(l', bids, onSide, p, size);
  }

  lemma {:induction false} FillsSame(book: seq<Level>, book': seq<Level>, bids: bool, inside: nat, p: nat, limit: nat,
          size: nat)
    requires OnBook(|book|, bids, p, limit) && |book'| == |book| && PlainBook(book) && PlainBook(book')
    requires forall r :: 0 <= r < |book| ==> book'[r].limits == book[r].limits
    ensures Match(book', bids, inside, p, limit, size).fills == Match(book, bids, inside, p, limit, size).fills
    decreases if bids then p else |book| - p
  {
    if size != 0 && InsideOf(bids, p, limit) {
      hide HitLevel, PlainChain;
      var h := HitLevel(book[p], bids, OnSide(bids, p, inside), p, size);
      var h' := HitLevel(book'[p], bids, OnSide(bids, p, inside), p, size);
      LevelSame(book[p], book'[p], bids, OnSide(bids, p, inside), p, size);
      FillsSame(book[p := h.level], book'[p := h'.level], bids, inside, Next(bids, p), limit, h.left);
    }
  }

  /* ---- the first order is a limit order ---- */

  /** An order that could trade does. */
  lemma {:induction false} QueueHas(book: seq<Level>, bids: bool, inside: nat, p: nat, limit: nat, r: nat)
    requires OnBook(|book|, bids, p, limit) && 0 < r < |book| && Beyond(bids, p, r) && InsideOf(bids, r, limit)
    requires OnSide(bids, r, inside) && book[r].limits != []
    ensures Queue(book, bids, inside, p, limit) != []
    decreases if bids then p else |book| - p
  {
    if p != r {
      QueueHas(book, bids, inside, Next(bids, p), limit, r);
    }
  }

  /** A limit order that does not trade on entry rests uncrossed. */
  lemma Uncrossing(f: Floor, t: Ticket, base: nat)
    requires |f.book| > 1 && Acceptable(t, base, |f.book|) && t.otype.LimitOrder? && t.cond.Plain? && Orderly(f)
    requires FillsOf(f, t, base) == []
    ensures !OnSide(!t.isBuy, LevelOf(t.limit, base), InsideLevel(f, !t.isBuy))
  {
    hide Match, Queue, AllSized, IdsUpTo, PlainBook;
    var bids := !t.isBuy;
    var p := LevelOf(t.limit, base);
    var inside := InsideLevel(f, bids);
    if OnSide(bids, p, inside) {
      QueueHas(f.book, bids, inside, Outermost(bids, |f.book|), p, inside);
      MatchPlain(f.book, bids, inside, Outermost(bids, |f.book|), p, t.sz);
      MatchConserves(f.book, bids, inside, Outermost(bids, |f.book|), p, t.sz);
    }
  }

  lemma LimitRests(f: Floor, t: Ticket, base: nat)
    requires |f.book| > 1 && Acceptable(t, base, |f.book|) && t.otype.LimitOrder? && t.cond.Plain? && Orderly(f)
    requires Enters(f, t, base).f.tape == f.tape
    ensures var p := LevelOf(t.limit, base);
      var b := Resting(f.lastId + 1, t.sz, false);
      var g := Enters(f, t, base).f;
      && !OnSide(!t.isBuy, p, InsideLevel(f, !t.isBuy))
      && g == LimitRested(f.(lastId := f.lastId + 1), t.isBuy, p, b) && Orderly(g) && g.lastId == f.lastId + 1
      && InsideLevel(g, !t.isBuy) == InsideLevel(f, !t.isBuy)
      && !RestsAsStop(g, b.id)
      && forall r, x :: 0 <= r < |f.book| && x in g.book[r].limits && x.id == b.id ==> r == p
  {
    hide Match, AllSized, IdsUpTo, PlainBook, SalesOf, Sent, Entered, Tradable, Snug, LimitRested;
    var p := LevelOf(t.limit, base);
    var id := f.lastId + 1;
    var b := Resting(id, t.sz, false);
    LimitEnters(f, t, base);
    SalesCount(FillsOf(f, t, base), id, base);
    Uncrossing(f, t, base);
    var f1 := f.(lastId := id);
    NotTradable(f1, !t.isBuy, p);
    SnugSame(f);
    Untradable(f1, !t.isBuy, p, id, t.sz, base);
    LimitIs(f, t, base);
    NotAmong(f, id);
    RestedOrderly(f, t.isBuy, p, b);
  }

  lemma SnugSame(f: Floor)
    requires Snug(f)
    ensures Snug(f.(lastId := f.lastId + 1))
  {
  }

  lemma RestedOrderly(f: Floor, isBuy: bool, p: nat, b: Bundle)
    requires 0 < p < |f.book| && Orderly(f) && b.id == f.lastId + 1 && b.Resting? && !b.aon && b.sz > 0
    requires !RestsAsStop(f, b.id) && forall r, x :: 0 <= r < |f.book| && x in f.book[r].limits ==> x.id != b.id
    ensures var g := LimitRested(f.(lastId := f.lastId + 1), isBuy, p, b);
      && Orderly(g) && g.lastId == f.lastId + 1 && InsideLevel(g, !isBuy) == InsideLevel(f, !isBuy)
      && !RestsAsStop(g, b.id)
      && forall r, x :: 0 <= r < |f.book| && x in g.book[r].limits && x.id == b.id ==> r == p
  {
    PushedKnown(f.book, f.lastId, p, Limits, b);
    PlainRested(f.(lastId := f.lastId + 1), isBuy, p, b.id, b.sz);
    RestedSnug(f, isBuy, p, b);
    hide AllSized, IdsUpTo, PlainBook, Snug;
  }

  lemma NotTradable(f: Floor, bids: bool, p: nat)
    requires 0 < p < |f.book| && PlainBook(f.book) && !OnSide(bids, p, InsideLevel(f, bids))
    ensures !Tradable(f, bids, p)
  {
  }

  lemma RestedSnug(f: Floor, isBuy: bool, p: nat, b: Bundle)
    requires 0 < p < |f.book| && Snug(f) && 0 < f.ask <= |f.book| && !RestsAsStop(f, b.id)
    requires forall r, x :: 0 <= r < |f.book| && x in f.book[r].limits ==> x.id != b.id
    ensures var g := LimitRested(f.(lastId := f.lastId + 1), isBuy, p, b);
      && Snug(g) && 0 < g.ask <= |f.book| && !RestsAsStop(g, b.id)
      && forall r, x :: 0 <= r < |f.book| && x in g.book[r].limits && x.id == b.id ==> r == p
  {
    var g := LimitRested(f.(lastId := f.lastId + 1), isBuy, p, b);
    assert g.book[p].limits == f.book[p].limits + [b];
    assert forall r :: 0 <= r < |f.book| ==> g.book[r].stops == f.book[r].stops;
  }

  /** An order resting uncrossed on a limit chain is not touched by the other order of its pair. */
  lemma LimitFirst(f: Floor, first: Ticket, second: Ticket, base: nat)
    requires |f.book| > 1 && AcceptablePair(first, second, base, |f.book|) && Orderly(f) && first.otype.LimitOrder?
    ensures !Spoilt(f, first, second, base)
  {
    hide Entered, PlainBook, AllSized, IdsUpTo, Match, Looked, SalesOf, LimitRested;
    var g := Enters(f, first, base).f;
    if g.tape == f.tape {
      var id1 := f.lastId + 1;
      LimitRests(f, first, base);
      if second.otype.LimitOrder? {
        LimitEnters(g, second, base);
        var h := Enters(g, second, base).f;
        var fills := FillsOf(g, second, base);
        SoldIff(g, h, fills, id1 + 1, base);
        if Sold(g, h, id1) {
          var x :| x in fills && x.maker == id1;
          MakerRests(g, !second.isBuy, LevelOf(second.limit, base), second.sz, x);
        }
      } else {
        StopEnters(g, second, base);
        Unsold(g, Enters(g, second, base).f, id1);
      }
    }
  }

  lemma Unsold(f: Floor, g: Floor, id: nat)
    requires g.tape == f.tape
    ensures !Sold(f, g, id)
  {
    assert g.tape[|f.tape|..] == [];
  }

  /* ---- both ---- */

  lemma TwoStops(f: Floor, first: Ticket, second: Ticket, base: nat)
    requires |f.book| > 1 && AcceptablePair(first, second, base, |f.book|) && Orderly(f) && StopTicket(first)
      && StopTicket(second)
    ensures !Spoilt(f, first, second, base)
  {
    hide Entered, PlainBook, AllSized, IdsUpTo, StopRested;
    StopEnters(f, first, base);
    var g := Enters(f, first, base).f;
    StopEnters(g, second, base);
    NotAmong(g, g.lastId + 1);
    Unsold(g, Enters(g, second, base).f, g.lastId + 1);
  }

  /** Both orders of a pair trade or are triggered exactly when the first is a stop, the second is
      a limit order that trades on entry, and the check for stops after that takes out the level
      of the first. */
  lemma SpoiltIff(f: Floor, first: Ticket, second: Ticket, base: nat)
    requires |f.book| > 1 && AcceptablePair(first, second, base, |f.book|) && Orderly(f)
    ensures Spoilt(f, first, second, base) <==> Spoils(f, first, second, base)
  {
    hide Spoilt, Spoils, Orderly;
    if first.otype.LimitOrder? {
      LimitFirst(f, first, second, base);
      NotStop(f, first, second, base);
    } else if second.otype.LimitOrder? {
      StopThenLimit(f, first, second, base);
    } else {
      TwoStops(f, first, second, base);
      NotStop(f, first, second, base);
    }
  }

  lemma NotStop(f: Floor, first: Ticket, second: Ticket, base: nat)
    requires |f.book| > 1 && AcceptablePair(first, second, base, |f.book|)
      && (!StopTicket(first) || !second.otype.LimitOrder?)
    ensures !Spoils(f, first, second, base)
  {
  }

  /* ---- a session ---- */

  /** A sell of 5 at a price; then a pair of a buy stop at that price and a buy of 5 there: the
      second takes the sell, which triggers the first before the two are linked. */
  lemma SpoiltSession(n: nat)
    ensures var first := Ticket(StopOrder, true, 0, 2, 5, Plain, 0);
      var second := Ticket(LimitOrder, true, 2, 0, 5, Plain, 0);
      var f := Windowed(Opening(4), Ticket(LimitOrder, false, 2, 0, 5, Plain, 0), 1, n).f;
      |f.book| == 4 && AcceptablePair(first, second, 1, 4) && Orderly(f) && Spoils(f, first, second, 1)
        && Spoilt(f, first, second, 1)
  {
    var first := Ticket(StopOrder, true, 0, 2, 5, Plain, 0);
    var second := Ticket(LimitOrder, true, 2, 0, 5, Plain, 0);
    hide Windowed, Spoilt, Spoils, AcceptablePair, Orderly;
    SellEnters(n);
    var f := Windowed(Opening(4), Ticket(LimitOrder, false, 2, 0, 5, Plain, 0), 1, n).f;
    PairSpoils(f, first, second);
    SpoiltIff(f, first, second, 1);
  }

  lemma PairSpoils(f: Floor, first: Ticket, second: Ticket)
    requires f == Opening(4).(book := OFFERED, ask := 2, lastId := 1)
    requires first == Ticket(StopOrder, true, 0, 2, 5, Plain, 0)
      && second == Ticket(LimitOrder, true, 2, 0, 5, Plain, 0)
    ensures |f.book| == 4 && AcceptablePair(first, second, 1, 4) && Spoils(f, first, second, 1)
  {
    hide Match, Looked, Reached;
    SellTaken(f);
  }

  const OFFERED: seq<Level> := [VACANT, VACANT, Level([Resting(1, 5, false)], [], [], []), VACANT]

  lemma SellEnters(n: nat)
    ensures var f := Windowed(Opening(4), Ticket(LimitOrder, false, 2, 0, 5, Plain, 0), 1, n).f;
      f == Opening(4).(book := OFFERED, ask := 2, lastId := 1) && Orderly(f)
  {
    var f := Opening(4);
    var t := Ticket(LimitOrder, false, 2, 0, 5, Plain, 1);
    var f1 := f.(lastId := 1);
    assert !Tradable(f1, true, 2);
    assert IdsUpTo(f.book, 0) && AllSized(f.book);
    Untradable(f1, true, 2, 1, 5, 1);
    PlainLimit(f1, false, 2, 1, 5, 1);
    assert VACANT.limits + [Resting(1, 5, false)] == [Resting(1, 5, false)];
    assert Pushed(f.book, 2, Limits, Resting(1, 5, false)) == OFFERED;
    hide LimitPass, Sent, IdsUpTo, AllSized;
    PushedKnown(f.book, 0, 2, Limits, Resting(1, 5, false));
  }

  lemma SellTaken(f: Floor)
    requires f == Opening(4).(book := OFFERED, ask := 2, lastId := 1)
    ensures Looked(f, false, 2, 5) == 0 && Reached(f, false, 2, 5) == 2
  {
    var after: seq<Level> := [VACANT, VACANT, VACANT, VACANT];
    assert HitLimits([Resting(1, 5, false)], 2, 5) == Hit([], [], [Fill(2, 1, 5)], 0);
    assert HitLevel(OFFERED[2], false, true, 2, 5) == LevelHit(VACANT, [Fill(2, 1, 5)], 0, false) by {
      assert [] + [Fill(2, 1, 5)] == [Fill(2, 1, 5)];
    }
    assert HitLevel(OFFERED[1], false, false, 1, 5) == LevelHit(VACANT, [], 5, false);
    assert OFFERED[1 := VACANT] == OFFERED && OFFERED[2 := VACANT] == after;
    hide HitLevel;
    assert [Fill(2, 1, 5)] + [] == [Fill(2, 1, 5)];
    assert Match(OFFERED, false, 2, 2, 2, 5) == Outcome(after, [Fill(2, 1, 5)], 0, false);
    assert [] + [Fill(2, 1, 5)] == [Fill(2, 1, 5)];
    assert Match(OFFERED, false, 2, 1, 2, 5) == Outcome(after, [Fill(2, 1, 5)], 0, false);
    assert Left(OFFERED, false, 2, 2, 2, 5) == Left(OFFERED, false, 2, 3, 2, 0) == 0;
    assert Left(OFFERED, false, 2, 1, 2, 5) == Left(OFFERED, false, 2, 2, 2, 5);
  }

  /* ---- who is left in the limit chains ---- */

  ghost predicate HasId(c: seq<Bundle>, id: nat) {
    exists x :: x in c && x.id == id
  }

  ghost predicate Made(fills: seq<Fill>, id: nat) {
    exists x :: x in fills && x.maker == id
  }

  lemma {:induction false} HitKeeps(c: seq<Bundle>, p: nat, size: nat)
    requires PlainChain(c)
    ensures var h := HitLimits(c, p, size);
      && (forall b :: b in h.rest ==> HasId(c, b.id))
      && (forall b :: b in c ==> b in h.rest || Made(h.fills, b.id))
  {
    if c != [] && size != 0 {
      assert c[0] in c && forall b :: b in c[1..] ==> b in c;
      var h := HitLimits(c, p, size);
      if size < c[0].sz {
        assert h.rest == [Resized(c[0], c[0].sz - size)] + c[1..] && h.fills[0].maker == c[0].id;
      } else {
        var t := HitLimits(c[1..], p, size - c[0].sz);
        HitKeeps(c[1..], p, size - c[0].sz);
        assert h.rest == t.rest && h.fills == [Fill(p, c[0].id, c[0].sz)] + t.fills;
        assert h.fills[0].maker == c[0].id && forall x :: x in t.fills ==> x in h.fills;
      }
    }
  }

  /** Matching leaves whom it does not trade with, and nobody else. */
  ghost predicate Keeps(book: seq<Level>, book': seq<Level>, fills: seq<Fill>) {
    |book'| == |book| && forall r: nat :: r < |book| ==> LevelKept(book[r].limits, book'[r].limits, fills)
  }

  ghost predicate LevelKept(c: seq<Bundle>, c': seq<Bundle>, fills: seq<Fill>) {
    && (forall b :: b in c' ==> HasId(c, b.id))
    && (forall b :: b in c ==> b in c' || Made(fills, b.id))
  }

  lemma LevelKeeps(book: seq<Level>, bids: bool, onSide: bool, p: nat, size: nat)
    requires PlainBook(book) && p < |book| && size > 0
    ensures var h := HitLevel(book[p], bids, onSide, p, size); Keeps(book, book[p := h.level], h.fills)
  {
    HitKeeps(book[p].limits, p, size);
    assert HitAons([], p, size) == Hit([], [], [], size);
    hide HitLimits;
    var h := HitLevel(book[p], bids, onSide, p, size);
    forall r: nat | r < |book| ensures LevelKept(book[r].limits, book[p := h.level][r].limits, h.fills) {
      KeptSame(book[r].limits, h.fills);
    }
  }

  lemma KeptSame(c: seq<Bundle>, fills: seq<Fill>)
    ensures LevelKept(c, c, fills)
  {
  }

  lemma KeptTrans(a: seq<Bundle>, b: seq<Bundle>, c: seq<Bundle>, f: seq<Fill>, g: seq<Fill>)
    requires LevelKept(a, b, f) && LevelKept(b, c, g)
    ensures LevelKept(a, c, f + g)
  {
    assert forall x :: x in f || x in g ==> x in f + g;
    forall y | y in c ensures HasId(a, y.id) {
      assert HasId(b, y.id);
      var x :| x in b && x.id == y.id;
      assert HasId(a, x.id);
    }
  }

  lemma KeepsTrans(a: seq<Level>, b: seq<Level>, c: seq<Level>, f: seq<Fill>, g: seq<Fill>)
    requires Keeps(a, b, f) && Keeps(b, c, g)
    ensures Keeps(a, c, f + g)
  {
    hide LevelKept;
    forall r: nat | r < |a| ensures LevelKept(a[r].limits, c[r].limits, f + g) {
      assert LevelKept(a[r].limits, b[r].limits, f) && LevelKept(b[r].limits, c[r].limits, g);
      KeptTrans(a[r].limits, b[r].limits, c[r].limits, f, g);
    }
  }

  lemma {:induction false} MatchKeeps(book: seq<Level>, bids: bool, inside: nat, p: nat, limit: nat, size: nat)
    requires OnBook(|book|, bids, p, limit) && PlainBook(book)
    ensures var m := Match(book, bids, inside, p, limit, size); Keeps(book, m.book, m.fills)
    decreases if bids then p else |book| - p
  {
    if size == 0 || !InsideOf(bids, p, limit) {
      forall r: nat | r < |book| ensures LevelKept(book[r].limits, book[r].limits, []) {
        KeptSame(book[r].limits, []);
      }
    } else {
      hide HitLevel, Keeps;
      var h := HitLevel(book[p], bids, OnSide(bids, p, inside), p, size);
      HitLevelPlain(book[p], bids, OnSide(bids, p, inside), p, size);
      LevelKeeps(book, bids, OnSide(bids, p, inside), p, size);
      MatchKeeps(book[p := h.level], bids, inside, Next(bids, p), limit, h.left);
      KeepsTrans(book, book[p := h.level], Match(book, bids, inside, p, limit, size).book, h.fills,
                 Match(book[p := h.level], bids, inside, Next(bids, p), limit, h.left).fills);
    }
  }
}
