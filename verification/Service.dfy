/** Matching as serving one flat queue: every order in reach has its turn, in price-time priority. */
module Service {
  import opened Ladder
  import opened Matcher

  /** A resting order in reach; whole: it trades as a whole or not at all. */
  datatype Offer = Offer(level: nat, id: nat, sz: nat, whole: bool)

  function Offers(c: seq<Bundle>, p: nat, aons: bool): (r: seq<Offer>)
    ensures |r| == |c| && forall i :: 0 <= i < |c| ==> r[i] == Offer(p, c[i].id, c[i].sz, aons || IsAon(c[i]))
  {
    seq(|c|, i requires 0 <= i < |c| => Offer(p, c[i].id, c[i].sz, aons || IsAon(c[i])))
  }

  /** The orders of a level that can be hit: the AON chain before the limit chain, oldest first. */
  function OfferedAt(l: Level, bids: bool, onSide: bool, p: nat): seq<Offer> {
    Offers(Chain(l, AonKind(bids)), p, true) + if onSide then Offers(l.limits, p, false) else []
  }

  /** The orders in reach, best level first. */
  function Offered(book: seq<Level>, bids: bool, inside: nat, p: nat, limit: nat): seq<Offer>
    requires OnBook(|book|, bids, p, limit)
    decreases if bids then p else |book| - p
  {
    if !InsideOf(bids, p, limit) then []
    else OfferedAt(book[p], bids, OnSide(bids, p, inside), p) + Offered(book, bids, inside, Next(bids, p), limit)
  }

  /** One order has its turn with that size left: it trades all it has if that fits, else what is left;
      but nothing if it must trade as a whole. */
  function Turn(o: Offer, left: nat): (fills: seq<Fill>)
    ensures Total(fills) <= left
  {
    if left == 0 || (o.whole && left < o.sz) then [] else [Fill(o.level, o.id, if o.sz <= left then o.sz else left)]
  }

  /** All have their turns. */
  function Served(q: seq<Offer>, size: nat): (fills: seq<Fill>)
    ensures Total(fills) <= size
    decreases |q|
  {
    if q == [] then []
    else
      var t := Turn(q[0], size);
      var rest := Served(q[1..], size - Total(t));
      TotalConcat(t, rest);
      t + rest
  }

  lemma {:induction false} ServedNone(q: seq<Offer>)
    ensures Served(q, 0) == []
  {
    if q != [] {
      ServedNone(q[1..]);
    }
  }

  lemma ServedFirst(q: seq<Offer>, size: nat)
    requires q != []
    ensures Served(q, size) == Turn(q[0], size) + Served(q[1..], size - Total(Turn(q[0], size)))
  {
  }

  /** What an order takes on its turn. */
  lemma TurnTakes(o: Offer, left: nat)
    ensures left > 0 ==> Total(Turn(o, left)) == if o.sz <= left then o.sz else if o.whole then 0 else left
    ensures left == 0 ==> Turn(o, left) == []
  {
  }

  lemma Chained<T>(a: seq<T>, b: seq<T>, c: seq<T>)
    ensures a + (b + c) == a + b + c && [] + a == a && a + [] == a
  {
  }

  /** Those at the back of a queue get what those in front leave. */
  lemma {:induction false} ServedConcat(a: seq<Offer>, b: seq<Offer>, size: nat)
    ensures Served(a + b, size) == Served(a, size) + Served(b, size - Total(Served(a, size)))
    decreases |a|
  {
    hide Served, Turn, Total;
    if a == [] {
      ServedEmpty(b, size);
    } else {
      ServedConcat(a[1..], b, size - Total(Turn(a[0], size)));
      ServedOn(a, b, size);
    }
  }

  lemma ServedOn(a: seq<Offer>, b: seq<Offer>, size: nat)
    requires a != []
    requires var left := size - Total(Turn(a[0], size));
      Served(a[1..] + b, left) == Served(a[1..], left) + Served(b, left - Total(Served(a[1..], left)))
    ensures Served(a + b, size) == Served(a, size) + Served(b, size - Total(Served(a, size)))
  {
    hide Served, Turn, Total;
    var t := Turn(a[0], size);
    var left := size - Total(t);
    var rest := Served(a[1..], left);
    var last := Served(b, left - Total(rest));
    assert size - Total(Served(a, size)) == left - Total(rest) by {
      ServedFirst(a, size);
      Sums(t, rest, Served(a, size), size);
    }
    assert Served(a + b, size) == Served(a, size) + last by {
      ServedFirst(a, size);
      FirstOfBoth(a, b, size);
      Regrouped(Served(a + b, size), t, rest, last, Served(a, size));
    }
  }

  lemma ServedEmpty(b: seq<Offer>, size: nat)
    ensures Served([], size) == [] && Total([]) == 0 && [] + b == b && [] + Served(b, size) == Served(b, size)
  {
  }

  lemma FirstOfBoth(a: seq<Offer>, b: seq<Offer>, size: nat)
    requires a != []
    ensures Served(a + b, size) == Turn(a[0], size) + Served(a[1..] + b, size - Total(Turn(a[0], size)))
  {
    assert (a + b)[1..] == a[1..] + b && (a + b)[0] == a[0];
  }

  lemma Sums(a: seq<Fill>, b: seq<Fill>, both: seq<Fill>, size: nat)
    requires both == a + b
    ensures size - Total(both) == size - Total(a) - Total(b)
  {
    TotalConcat(a, b);
  }

  lemma Regrouped<T>(whole: seq<T>, a: seq<T>, b: seq<T>, c: seq<T>, front: seq<T>)
    requires whole == a + (b + c) && front == a + b
    ensures whole == front + c
  {
  }

  /** The first order of a chain has its turn. */
  lemma AonsFirst(c: seq<Bundle>, p: nat, size: nat)
    requires c != [] && size > 0
    ensures var t := Turn(Offer(p, c[0].id, c[0].sz, true), size);
      HitAons(c, p, size).fills == t + HitAons(c[1..], p, size - Total(t)).fills
  {
    TurnTakes(Offer(p, c[0].id, c[0].sz, true), size);
    Chained(HitAons(c[1..], p, size).fills, [], []);
  }

  lemma LimitsFirst(c: seq<Bundle>, p: nat, size: nat)
    requires c != [] && size > 0
    ensures var t := Turn(Offer(p, c[0].id, c[0].sz, IsAon(c[0])), size);
      HitLimits(c, p, size).fills == t + HitLimits(c[1..], p, size - Total(t)).fills
  {
    var t := Turn(Offer(p, c[0].id, c[0].sz, IsAon(c[0])), size);
    TurnTakes(Offer(p, c[0].id, c[0].sz, IsAon(c[0])), size);
    Chained(HitLimits(c[1..], p, size).fills, [], []);
    Chained(t, [], []);
  }

  lemma OffersRest(c: seq<Bundle>, p: nat, aons: bool)
    requires c != []
    ensures Offers(c, p, aons)[1..] == Offers(c[1..], p, aons)
  {
  }

  lemma {:induction false} AonsServed(c: seq<Bundle>, p: nat, size: nat)
    ensures HitAons(c, p, size).fills == Served(Offers(c, p, true), size)
  {
    if c == [] || size == 0 {
      ServedNone(Offers(c, p, true));
    } else {
      hide Served, Turn, Total, HitAons;
      AonsServed(c[1..], p, size - Total(Turn(Offer(p, c[0].id, c[0].sz, true), size)));
      AonsServedOn(c, p, size);
    }
  }

  lemma AonsServedOn(c: seq<Bundle>, p: nat, size: nat)
    requires c != [] && size > 0
    requires var left := size - Total(Turn(Offer(p, c[0].id, c[0].sz, true), size));
      HitAons(c[1..], p, left).fills == Served(Offers(c[1..], p, true), left)
    ensures HitAons(c, p, size).fills == Served(Offers(c, p, true), size)
  {
    hide Served, Turn, Total, HitAons;
    AonsFirst(c, p, size);
    OffersRest(c, p, true);
    ServedFirst(Offers(c, p, true), size);
  }

  lemma {:induction false} LimitsServed(c: seq<Bundle>, p: nat, size: nat)
    ensures HitLimits(c, p, size).fills == Served(Offers(c, p, false), size)
  {
    if c == [] || size == 0 {
      ServedNone(Offers(c, p, false));
    } else {
      hide Served, Turn, Total, HitLimits;
      LimitsServed(c[1..], p, size - Total(Turn(Offer(p, c[0].id, c[0].sz, IsAon(c[0])), size)));
      LimitsServedOn(c, p, size);
    }
  }

  lemma LimitsServedOn(c: seq<Bundle>, p: nat, size: nat)
    requires c != [] && size > 0
    requires var left := size - Total(Turn(Offer(p, c[0].id, c[0].sz, IsAon(c[0])), size));
      HitLimits(c[1..], p, left).fills == Served(Offers(c[1..], p, false), left)
    ensures HitLimits(c, p, size).fills == Served(Offers(c, p, false), size)
  {
    hide Served, Turn, Total, HitLimits;
    LimitsFirst(c, p, size);
    OffersRest(c, p, false);
    ServedFirst(Offers(c, p, false), size);
  }

  lemma LevelServed(l: Level, bids: bool, onSide: bool, p: nat, size: nat)
    ensures HitLevel(l, bids, onSide, p, size).fills == Served(OfferedAt(l, bids, onSide, p), size)
  {
    var c := Chain(l, AonKind(bids));
    var a := HitAons(c, p, size);
    AonsServed(c, p, size);
    LimitsServed(l.limits, p, a.left);
    ServedConcat(Offers(c, p, true), Offers(l.limits, p, false), size);
    hide Served, HitAons, HitLimits, Turn;
    if !onSide {
      assert Offers(c, p, true) + [] == Offers(c, p, true);
    } else if l.limits == [] {
      assert Offers(c, p, true) + Offers(l.limits, p, false) == Offers(c, p, true);
    }
  }

  lemma {:induction false} OfferedSame(book: seq<Level>, book': seq<Level>, bids: bool, inside: nat, p: nat, limit: nat)
    requires OnBook(|book|, bids, p, limit) && |book'| == |book|
    requires forall r :: 0 < r < |book| && Beyond(bids, p, r) ==> book'[r] == book[r]
    ensures Offered(book', bids, inside, p, limit) == Offered(book, bids, inside, p, limit)
    decreases if bids then p else |book| - p
  {
    if InsideOf(bids, p, limit) {
      OfferedSame(book, book', bids, inside, Next(bids, p), limit);
    }
  }

  /** A match serves the flat queue of the book. */
  lemma {:induction false} MatchServes(book: seq<Level>, bids: bool, inside: nat, p: nat, limit: nat, size: nat)
    requires OnBook(|book|, bids, p, limit)
    ensures Match(book, bids, inside, p, limit, size).fills == Served(Offered(book, bids, inside, p, limit), size)
    decreases if bids then p else |book| - p
  {
    if size == 0 {
      ServedNone(Offered(book, bids, inside, p, limit));
    } else if InsideOf(bids, p, limit) {
      hide HitLevel, Served, OfferedAt, Match, Offered, Total;
      var h := HitLevel(book[p], bids, OnSide(bids, p, inside), p, size);
      MatchServes(book[p := h.level], bids, inside, Next(bids, p), limit, h.left);
      MatchServesOn(book, bids, inside, p, limit, size, h);
    }
  }

  lemma MatchServesOn(book: seq<Level>, bids: bool, inside: nat, p: nat, limit: nat, size: nat, h: LevelHit)
    requires OnBook(|book|, bids, p, limit) && InsideOf(bids, p, limit) && size > 0
    requires h == HitLevel(book[p], bids, OnSide(bids, p, inside), p, size)
    requires var book1 := book[p := h.level];
      Match(book1, bids, inside, Next(bids, p), limit, h.left).fills ==
        Served(Offered(book1, bids, inside, Next(bids, p), limit), h.left)
    ensures Match(book, bids, inside, p, limit, size).fills == Served(Offered(book, bids, inside, p, limit), size)
  {
    hide HitLevel, Served, OfferedAt, Match, Offered, Total;
    var here := OfferedAt(book[p], bids, OnSide(bids, p, inside), p);
    var rest := Offered(book, bids, inside, Next(bids, p), limit);
    var fills := Match(book[p := h.level], bids, inside, Next(bids, p), limit, h.left).fills;
    assert h.fills == Served(here, size) && h.left == size - Total(h.fills) by {
      LevelServed(book[p], bids, OnSide(bids, p, inside), p, size);
      HitLevelConserves(book[p], bids, OnSide(bids, p, inside), p, size);
    }
    assert fills == Served(rest, h.left) by {
      OfferedSame(book, book[p := h.level], bids, inside, Next(bids, p), limit);
    }
    ServedBoth(here, rest, size, h.fills, fills);
    MatchFirst(book, bids, inside, p, limit, size);
  }

  lemma ServedBoth(a: seq<Offer>, b: seq<Offer>, size: nat, first: seq<Fill>, then_: seq<Fill>)
    requires first == Served(a, size) && then_ == Served(b, size - Total(first))
    ensures Served(a + b, size) == first + then_
  {
    ServedConcat(a, b, size);
  }

  lemma MatchFirst(book: seq<Level>, bids: bool, inside: nat, p: nat, limit: nat, size: nat)
    requires OnBook(|book|, bids, p, limit) && InsideOf(bids, p, limit) && size > 0
    ensures var h := HitLevel(book[p], bids, OnSide(bids, p, inside), p, size);
      Match(book, bids, inside, p, limit, size).fills ==
        h.fills + Match(book[p := h.level], bids, inside, Next(bids, p), limit, h.left).fills
    ensures Offered(book, bids, inside, p, limit) ==
      OfferedAt(book[p], bids, OnSide(bids, p, inside), p) + Offered(book, bids, inside, Next(bids, p), limit)
  {
    hide HitLevel, OfferedAt;
  }

  /** Every order in reach has its turn, after all those of higher priority and with what they left: it
      trades all it has if that fits; if not, what is left, or, all-or-none, nothing at all. The match is
      what those before it traded, its own trade, and what those after it trade. */
  lemma MatchInTurn(book: seq<Level>, bids: bool, inside: nat, p: nat, limit: nat, size: nat, i: nat)
    requires OnBook(|book|, bids, p, limit) && i < |Offered(book, bids, inside, p, limit)|
    ensures var q := Offered(book, bids, inside, p, limit);
      var before, o := Served(q[..i], size), q[i];
      var left := size - Total(before);
      var own := if o.sz <= left then o.sz else if o.whole then 0 else left;
      var trade := if left == 0 || (o.whole && left < o.sz) then [] else [Fill(o.level, o.id, own)];
      && own <= left
      && Match(book, bids, inside, p, limit, size).fills == before + trade + Served(q[i + 1..], left - own)
  {
    hide Match, Offered, Served, Turn, Total;
    var q := Offered(book, bids, inside, p, limit);
    MatchServes(book, bids, inside, p, limit, size);
    ServedSplit(q, size, i);
    TurnIs(q[i], size - Total(Served(q[..i], size)));
  }

  lemma TurnIs(o: Offer, left: nat)
    ensures var own := if o.sz <= left then o.sz else if o.whole then 0 else left;
      && own <= left && (left > 0 ==> Total(Turn(o, left)) == own) && (left == 0 ==> Total(Turn(o, left)) == 0)
      && Turn(o, left) == if left == 0 || (o.whole && left < o.sz) then [] else [Fill(o.level, o.id, own)]
  {
    TurnTakes(o, left);
  }

  lemma ServedSplit(q: seq<Offer>, size: nat, i: nat)
    requires i < |q|
    ensures var left := size - Total(Served(q[..i], size));
      var t := Turn(q[i], left);
      Served(q, size) == Served(q[..i], size) + t + Served(q[i + 1..], left - Total(t))
  {
    hide Served, Turn, Total;
    var left := size - Total(Served(q[..i], size));
    var t := Turn(q[i], left);
    assert q == q[..i] + q[i..] && q[i..][1..] == q[i + 1..];
    ServedConcat(q[..i], q[i..], size);
    ServedFirst(q[i..], left);
    Chained(Served(q[..i], size), t, Served(q[i + 1..], left - Total(t)));
  }

  /* ---- who is in reach, and in which order ---- */

  /** Better levels come first, ... */
  lemma {:induction false} OfferedSorted(book: seq<Level>, bids: bool, inside: nat, p: nat, limit: nat, i: nat, j: nat)
    requires OnBook(|book|, bids, p, limit) && i <= j < |Offered(book, bids, inside, p, limit)|
    ensures var q := Offered(book, bids, inside, p, limit);
      && Beyond(bids, p, q[i].level) && Beyond(bids, q[i].level, q[j].level) && InsideOf(bids, q[j].level, limit)
    decreases if bids then p else |book| - p
  {
    if InsideOf(bids, p, limit) {
      var n := |OfferedAt(book[p], bids, OnSide(bids, p, inside), p)|;
      if i >= n {
        OfferedSorted(book, bids, inside, Next(bids, p), limit, i - n, j - n);
      } else if j >= n {
        OfferedSorted(book, bids, inside, Next(bids, p), limit, j - n, j - n);
      }
    }
  }

  /** From m on q has the orders that level r offers: its AON chain and then, on the side being hit, its limit
      chain, both from the oldest on. */
  predicate OfferedFrom(q: seq<Offer>, m: nat, l: Level, bids: bool, onSide: bool, r: nat) {
    var a, c := Chain(l, AonKind(bids)), if onSide then l.limits else [];
    && m + |a| + |c| <= |q|
    && (forall i :: 0 <= i < |a| ==> q[m + i] == Offer(r, a[i].id, a[i].sz, true))
    && (forall i :: 0 <= i < |c| ==> q[m + |a| + i] == Offer(r, c[i].id, c[i].sz, IsAon(c[i])))
  }

  /** ... and no order of a level in reach is left out. */
  lemma {:induction false} OfferedTogether(book: seq<Level>, bids: bool, inside: nat, p: nat, limit: nat, r: nat)
      returns (m: nat)
    requires OnBook(|book|, bids, p, limit) && 0 < r < |book| && Beyond(bids, p, r) && InsideOf(bids, r, limit)
    ensures OfferedFrom(Offered(book, bids, inside, p, limit), m, book[r], bids, OnSide(bids, r, inside), r)
    decreases if bids then p else |book| - p
  {
    hide OfferedFrom, OfferedAt;
    var here := OfferedAt(book[p], bids, OnSide(bids, p, inside), p);
    var rest := Offered(book, bids, inside, Next(bids, p), limit);
    if r == p {
      m := 0;
      FromFirst(book[p], bids, OnSide(bids, p, inside), p, rest);
    } else {
      var m0 := OfferedTogether(book, bids, inside, Next(bids, p), limit, r);
      m := |here| + m0;
      FromOn(here, rest, m0, book[r], bids, OnSide(bids, r, inside), r);
    }
  }

  lemma FromFirst(l: Level, bids: bool, onSide: bool, p: nat, rest: seq<Offer>)
    ensures OfferedFrom(OfferedAt(l, bids, onSide, p) + rest, 0, l, bids, onSide, p)
  {
  }

  lemma FromOn(here: seq<Offer>, rest: seq<Offer>, m: nat, l: Level, bids: bool, onSide: bool, r: nat)
    requires OfferedFrom(rest, m, l, bids, onSide, r)
    ensures OfferedFrom(here + rest, |here| + m, l, bids, onSide, r)
  {
  }
}
