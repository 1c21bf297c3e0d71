/** Books without all-or-none orders: nothing faults, nobody is skipped, and a new limit
    order is matched and rests, no more. */
module Plain {
  import opened Ladder
  import opened Matcher
  import opened Desk
  import opened Overlaps
  import opened Sweep
  import opened Reference
  import opened Priority

  predicate PlainChain(c: seq<Bundle>) {
    forall b :: b in c ==> !IsAon(b)
  }

  ghost predicate PlainBook(book: seq<Level>) {
    forall r :: 0 <= r < |book| ==> book[r].aonBuys == [] && book[r].aonSells == [] && PlainChain(book[r].limits)
  }

  lemma {:induction false} HitLimitsPlain(c: seq<Bundle>, p: nat, size: nat)
    requires PlainChain(c)
    ensures var h := HitLimits(c, p, size);
      h.moved == [] && PlainChain(h.rest) && Makers(h.fills) <= Ids(c) && (h.left > 0 ==> Makers(h.fills) == Ids(c))
  {
    if c != [] && size != 0 {
      assert c[0] in c && forall b :: b in c[1..] ==> b in c;
      if size < c[0].sz {
        assert PlainChain([Resized(c[0], c[0].sz - size)] + c[1..]);
      } else {
        HitLimitsPlain(c[1..], p, size - c[0].sz);
      }
    }
  }

  lemma HitLevelPlain(l: Level, bids: bool, onSide: bool, p: nat, size: nat)
    requires l.aonBuys == [] && l.aonSells == [] && PlainChain(l.limits) && size > 0
    ensures var h := HitLevel(l, bids, onSide, p, size);
      && !h.fault && h.level.aonBuys == [] && h.level.aonSells == [] && PlainChain(h.level.limits)
      && Makers(h.fills) <= LevelQueue(l, bids, onSide)
        && (h.left > 0 ==> Makers(h.fills) == LevelQueue(l, bids, onSide))
  {
    HitLimitsPlain(l.limits, p, size);
    assert HitAons([], p, size) == Hit([], [], [], size);
    var h := HitLimits(l.limits, p, size);
    assert [] + h.fills == h.fills && Ids([]) + Ids(l.limits) == Ids(l.limits);
  }

  /** Without all-or-none orders a match never faults and nobody is skipped: those who trade
      are the first in order of priority, and all of them unless the size is used up. */
  lemma {:induction false} MatchPlain(book: seq<Level>, bids: bool, inside: nat, p: nat, limit: nat, size: nat)
    requires OnBook(|book|, bids, p, limit) && PlainBook(book)
    ensures var m := Match(book, bids, inside, p, limit, size);
      && !m.fault && PlainBook(m.book) && Makers(m.fills) <= Queue(book, bids, inside, p, limit)
      && (m.left > 0 ==> Makers(m.fills) == Queue(book, bids, inside, p, limit))
    decreases if bids then p else |book| - p
  {
    if size != 0 && InsideOf(bids, p, limit) {
      var h := HitLevel(book[p], bids, OnSide(bids, p, inside), p, size);
      var book1 := book[p := h.level];
      var m := Match(book1, bids, inside, Next(bids, p), limit, h.left);
      HitLevelPlain(book[p], bids, OnSide(bids, p, inside), p, size);
      hide HitLevel, LevelQueue;
      MatchPlain(book1, bids, inside, Next(bids, p), limit, h.left);
      QueueSame(book, book1, bids, inside, Next(bids, p), limit);
      MakersConcat(h.fills, m.fills);
      if h.left == 0 {
        assert m.fills == [] && h.fills + [] == h.fills;
      }
      hide PlainBook;
      Prefixes(Makers(h.fills), LevelQueue(book[p], bids, OnSide(bids, p, inside)), Makers(m.fills),
               Queue(book1, bids, inside, Next(bids, p), limit), h.left == 0);
    }
  }

  /** The first part of a queue, and then, if that is all of it, of the next. */
  lemma Prefixes(a: seq<nat>, b: seq<nat>, a': seq<nat>, b': seq<nat>, ended: bool)
    requires a <= b && a' <= b' && if ended then a' == [] else a == b
    ensures a + a' <= b + b'
  {
  }

  lemma PlainOverlaps(book: seq<Level>, bids: bool, p: nat)
    requires PlainBook(book) && Reaching(|book|, bids, p)
    ensures Overlapped(book, bids, p) == []
  {
    NoOverlaps(book, bids, p);
  }

  lemma SweptPlain(book: seq<Level>, lo: nat, hi: nat)
    requires PlainBook(book)
    ensures PlainBook(Swept(book, lo, hi))
  {
  }

  /** Sending an order to a side of a plain book never faults and leaves it plain. */
  lemma SentPlain(f: Floor, bids: bool, plev: nat, id: nat, size: nat, base: nat)
    requires PlainBook(f.book) && 0 < plev < |f.book|
    ensures var r := Sent(f, bids, plev, id, size, base); !r.fault && PlainBook(r.f.book) && !r.f.check
  {
    hide Match, PlainBook, SweptUp, SweptDown, Swept, Outward, SalesOf;
    MatchPlain(f.book, bids, InsideLevel(f, bids), Outermost(bids, |f.book|), plev, size);
    var f1 := Matched(f, bids, plev, id, size, base).f;
    if f1.check {
      SweptPlain(f1.book, f1.lowBuyStop, f1.last);
      SweptPlain(Swept(f1.book, f1.lowBuyStop, f1.last), f1.last, f1.highSellStop);
    }
  }

  /** What is left of a new limit order that was sent, if anything is, rests on its limit chain. */
  ghost function ThenRests(r: Passed, isBuy: bool, p: nat, id: nat): Passed
    requires 0 < p < |r.f.book|
  {
    if r.left == 0 then r else r.(f := Rested(r.f, isBuy, p, id, r.left, false))
  }

  lemma PlainEnters(f: Floor, isBuy: bool, p: nat, id: nat, sz: nat, base: nat)
    requires PlainBook(f.book) && !f.check && 0 < p < |f.book| && sz > 0
    ensures var m := Crossed(f, isBuy, p, id, sz, false, base);
      LimitPass(f, isBuy, p, id, sz, false, base) == ThenRests(m, isBuy, p, id)
    ensures var r := LimitPass(f, isBuy, p, id, sz, false, base); !r.fault && PlainBook(r.f.book) && !r.f.check
  {
    hide Sent, PlainBook, Overlapped, Tradable;
    PlainOverlaps(f.book, !isBuy, p);
    SentPlain(f, !isBuy, p, id, sz, base);
    var m := Crossed(f, isBuy, p, id, sz, false, base);
    if m.left > 0 {
      PlainRested(m.f, isBuy, p, id, m.left);
      PlainOverlaps(Rested(m.f, isBuy, p, id, m.left, false).book, !isBuy, p);
    }
  }

  /** A new limit order is matched, and what is left of it rests on its limit chain: no more
      than that happens, whether or not there is anything to cross. */
  lemma PlainLimit(f: Floor, isBuy: bool, p: nat, id: nat, sz: nat, base: nat)
    requires PlainBook(f.book) && !f.check && Snug(f) && 0 < p < |f.book| && sz > 0
    ensures LimitPass(f, isBuy, p, id, sz, false, base) == ThenRests(Sent(f, !isBuy, p, id, sz, base), isBuy, p, id)
    ensures var r := LimitPass(f, isBuy, p, id, sz, false, base); !r.fault && PlainBook(r.f.book) && !r.f.check
  {
    hide LimitPass, Sent, PlainBook, Tradable;
    PlainEnters(f, isBuy, p, id, sz, base);
    if !Tradable(f, !isBuy, p) {
      Untradable(f, !isBuy, p, id, sz, base);
    }
  }

  lemma PlainRested(f: Floor, isBuy: bool, p: nat, id: nat, sz: nat)
    requires PlainBook(f.book) && 0 < p < |f.book|
    ensures var r := Rested(f, isBuy, p, id, sz, false); PlainBook(r.book) && r.check == f.check
  {
  }

  lemma PlainMarket(f: Floor, isBuy: bool, id: nat, sz: nat, base: nat)
    requires PlainBook(f.book) && |f.book| > 1 && sz > 0
    ensures MarketPass(f, isBuy, id, sz, base) == Sent(f, !isBuy, Outermost(isBuy, |f.book|), id, sz, base)
  {
    hide Sent, PlainBook, Overlapped;
    PlainOverlaps(f.book, !isBuy, Outermost(isBuy, |f.book|));
  }

  /** Orders that are not all-or-none never bring a plain book to fault, and leave it plain. */
  lemma EnteredPlain(f: Floor, t: Ticket, base: nat)
    requires |f.book| > 1 && Acceptable(t, base, |f.book|) && PlainBook(f.book) && !f.check && !t.cond.AllOrNone?
    ensures var r := Entered(f, t, base); !r.fault && PlainBook(r.f.book) && !r.f.check
  {
    hide LimitPass, MarketPass, PlainBook, Sent, Rested;
    if t.otype.Market? {
      PlainMarket(f, t.isBuy, t.id, t.sz, base);
      SentPlain(f, !t.isBuy, Outermost(t.isBuy, |f.book|), t.id, t.sz, base);
    } else if t.otype.LimitOrder? {
      PlainEnters(f, t.isBuy, LevelOf(t.limit, base), t.id, t.sz, base);
    } else {
      PlainStopped(f.book, LevelOf(t.stop, base), Stop(t.id, t.sz, t.isBuy, if t.otype.StopLimit? then t.limit else 0));
    }
  }

  lemma PlainStopped(book: seq<Level>, p: nat, b: Bundle)
    requires PlainBook(book) && p < |book|
    ensures PlainBook(Pushed(book, p, Stops, b))
  {
  }
}
