/** Price-time priority of the reference matcher. */
module Priority {
  import opened Ladder
  import opened Matcher

  function Ids(c: seq<Bundle>): (r: seq<nat>)
    ensures |r| == |c| && forall i :: 0 <= i < |c| ==> r[i] == c[i].id
  {
    if c == [] then [] else [c[0].id] + Ids(c[1..])
  }

  function Makers(fills: seq<Fill>): (r: seq<nat>)
    ensures |r| == |fills| && forall i :: 0 <= i < |fills| ==> r[i] == fills[i].maker
  {
    if fills == [] then [] else [fills[0].maker] + Makers(fills[1..])
  }

  lemma {:induction false} MakersConcat(f: seq<Fill>, g: seq<Fill>)
    ensures Makers(f + g) == Makers(f) + Makers(g)
  {
  }

  /** a is b with some elements left out. */
  predicate Within(a: seq<nat>, b: seq<nat>) {
    a == [] || (b != [] && ((a[0] == b[0] && Within(a[1..], b[1..])) || Within(a, b[1..])))
  }

  lemma {:induction false} WithinConcat(a: seq<nat>, b: seq<nat>, a': seq<nat>, b': seq<nat>)
    requires Within(a, b) && Within(a', b')
    ensures Within(a + a', b + b')
    decreases |b|
  {
    if b == [] {
      assert a + a' == a' && b + b' == b';
    } else {
      assert (b + b')[1..] == b[1..] + b';
      if a == [] {
        WithinConcat(a, b[1..], a', b');
      } else if a[0] == b[0] && Within(a[1..], b[1..]) {
        assert (a + a')[1..] == a[1..] + a';
        WithinConcat(a[1..], b[1..], a', b');
      } else {
        WithinConcat(a, b[1..], a', b');
      }
    }
  }

  /** The ids of the orders a match may trade with, in order of priority: best level first,
      at a level the AON chain before the limit chain, in a chain the oldest first. */
  function Queue(book: seq<Level>, bids: bool, inside: nat, p: nat, limit: nat): seq<nat>
    requires OnBook(|book|, bids, p, limit)
    decreases if bids then p else |book| - p
  {
    if !InsideOf(bids, p, limit) then []
    else LevelQueue(book[p], bids, OnSide(bids, p, inside)) + Queue(book, bids, inside, Next(bids, p), limit)
  }

  function LevelQueue(l: Level, bids: bool, onSide: bool): seq<nat> {
    Ids(Chain(l, AonKind(bids))) + if onSide then Ids(l.limits) else []
  }

  lemma {:induction false} QueueSame(book: seq<Level>, book': seq<Level>, bids: bool, inside: nat, p: nat, limit: nat)
    requires OnBook(|book|, bids, p, limit) && |book'| == |book|
    requires forall r :: 0 < r < |book| && Beyond(bids, p, r) ==> book'[r] == book[r]
    ensures Queue(book', bids, inside, p, limit) == Queue(book, bids, inside, p, limit)
    decreases if bids then p else |book| - p
  {
    if InsideOf(bids, p, limit) {
      QueueSame(book, book', bids, inside, Next(bids, p), limit);
    }
  }

  lemma {:induction false} HitAonsInOrder(c: seq<Bundle>, p: nat, size: nat)
    ensures Within(Makers(HitAons(c, p, size).fills), Ids(c))
  {
    if c != [] && size != 0 {
      assert Ids(c)[1..] == Ids(c[1..]);
      if size < c[0].sz {
        HitAonsInOrder(c[1..], p, size);
      } else {
        var h := HitAons(c[1..], p, size - c[0].sz);
        HitAonsInOrder(c[1..], p, size - c[0].sz);
        assert Makers(HitAons(c, p, size).fills)[1..] == Makers(h.fills);
      }
    }
  }

  lemma {:induction false} HitLimitsInOrder(c: seq<Bundle>, p: nat, size: nat)
    ensures Within(Makers(HitLimits(c, p, size).fills), Ids(c))
  {
    if c != [] && size != 0 {
      assert Ids(c)[1..] == Ids(c[1..]);
      if size < c[0].sz {
        if IsAon(c[0]) {
          HitLimitsInOrder(c[1..], p, size);
        } else {
          assert Makers(HitLimits(c, p, size).fills)[1..] == [];
        }
      } else {
        var h := HitLimits(c[1..], p, size - c[0].sz);
        HitLimitsInOrder(c[1..], p, size - c[0].sz);
        assert Makers(HitLimits(c, p, size).fills)[1..] == Makers(h.fills);
      }
    }
  }

  lemma HitLevelInOrder(l: Level, bids: bool, onSide: bool, p: nat, size: nat)
    ensures Within(Makers(HitLevel(l, bids, onSide, p, size).fills), LevelQueue(l, bids, onSide))
  {
    var a := HitAons(Chain(l, AonKind(bids)), p, size);
    var h := HitLimits(l.limits, p, a.left);
    HitAonsInOrder(Chain(l, AonKind(bids)), p, size);
    HitLimitsInOrder(l.limits, p, a.left);
    MakersConcat(a.fills, h.fills);
    if onSide {
      WithinConcat(Makers(a.fills), Ids(Chain(l, AonKind(bids))), Makers(h.fills), Ids(l.limits));
      if l.limits == [] {
        assert Ids(Chain(l, AonKind(bids))) + Ids(l.limits) == Ids(Chain(l, AonKind(bids)));
        assert h.fills == [] && a.fills + h.fills == a.fills;
      }
    } else {
      assert Ids(Chain(l, AonKind(bids))) + [] == Ids(Chain(l, AonKind(bids)));
    }
  }

  /** Trades are made in order of priority, within the limit. */
  lemma {:induction false} MatchInPriority(book: seq<Level>, bids: bool, inside: nat, p: nat, limit: nat, size: nat)
    requires OnBook(|book|, bids, p, limit)
    ensures Within(Makers(Match(book, bids, inside, p, limit, size).fills), Queue(book, bids, inside, p, limit))
    decreases if bids then p else |book| - p
  {
    if size != 0 && InsideOf(bids, p, limit) {
      var h := HitLevel(book[p], bids, OnSide(bids, p, inside), p, size);
      var m := Match(book[p := h.level], bids, inside, Next(bids, p), limit, h.left);
      HitLevelInOrder(book[p], bids, OnSide(bids, p, inside), p, size);
      MatchInPriority(book[p := h.level], bids, inside, Next(bids, p), limit, h.left);
      QueueSame(book, book[p := h.level], bids, inside, Next(bids, p), limit);
      MakersConcat(h.fills, m.fills);
      hide HitLevel, Match, Within, LevelQueue;
      WithinConcat(Makers(h.fills), LevelQueue(book[p], bids, OnSide(bids, p, inside)), Makers(m.fills),
                   Queue(book[p := h.level], bids, inside, Next(bids, p), limit));
    }
  }

  /* ---- who stays ---- */

  lemma {:induction false} WithinSelf(a: seq<nat>)
    ensures Within(a, a)
  {
    if a != [] {
      WithinSelf(a[1..]);
    }
  }

  lemma {:induction false} IdsConcat(a: seq<Bundle>, b: seq<Bundle>)
    ensures Ids(a + b) == Ids(a) + Ids(b)
  {
    forall i | 0 <= i < |a| + |b| ensures Ids(a + b)[i] == (Ids(a) + Ids(b))[i] {
      assert Ids(a + b)[i] == (a + b)[i].id;
    }
  }

  /** Whoever comes first stays in front, or is gone. */
  lemma WithinFirst(x: nat, a: seq<nat>, b: seq<nat>)
    requires Within(a, b)
    ensures Within([x] + a, [x] + b) && Within(a, [x] + b)
  {
    assert ([x] + a)[1..] == a && ([x] + b)[1..] == b;
  }

  lemma {:induction false} HitAonsKeepOrder(c: seq<Bundle>, p: nat, size: nat)
    ensures Within(Ids(HitAons(c, p, size).rest), Ids(c))
  {
    if c == [] || size == 0 {
      WithinSelf(Ids(c));
    } else {
      var h := HitAons(c[1..], p, if size < c[0].sz then size else size - c[0].sz);
      HitAonsKeepOrder(c[1..], p, if size < c[0].sz then size else size - c[0].sz);
      assert ([c[0]] + h.rest)[1..] == h.rest;
      hide Within;
      WithinFirst(c[0].id, Ids(h.rest), Ids(c[1..]));
    }
  }

  /** Those that step aside were in front of those that stay. */
  lemma {:induction false} HitLimitsKeepOrder(c: seq<Bundle>, p: nat, size: nat)
    ensures var h := HitLimits(c, p, size); Within(Ids(h.moved) + Ids(h.rest), Ids(c))
  {
    if c == [] || size == 0 {
      WithinSelf(Ids(c));
      assert [] + Ids(c) == Ids(c);
    } else if size < c[0].sz && !IsAon(c[0]) {
      var r := [Resized(c[0], c[0].sz - size)] + c[1..];
      assert r[1..] == c[1..] && Ids([]) + Ids(r) == Ids(c);
      WithinSelf(Ids(c));
    } else {
      var h := HitLimits(c[1..], p, if size < c[0].sz then size else size - c[0].sz);
      HitLimitsKeepOrder(c[1..], p, if size < c[0].sz then size else size - c[0].sz);
      assert ([c[0]] + h.moved)[1..] == h.moved;
      hide Within;
      WithinFirst(c[0].id, Ids(h.moved) + Ids(h.rest), Ids(c[1..]));
      assert [c[0].id] + Ids(h.moved) + Ids(h.rest) == [c[0].id] + (Ids(h.moved) + Ids(h.rest));
    }
  }

  lemma HitLevelKeepsOrder(l: Level, bids: bool, onSide: bool, p: nat, size: nat)
    ensures var h := HitLevel(l, bids, onSide, p, size);
      bids || !h.fault ==> Within(LevelQueue(h.level, bids, onSide), LevelQueue(l, bids, onSide))
  {
    var c := Chain(l, AonKind(bids));
    var a := HitAons(c, p, size);
    var h := HitLimits(l.limits, p, a.left);
    HitAonsKeepOrder(c, p, size);
    HitLimitsKeepOrder(l.limits, p, a.left);
    hide Within, HitAons, HitLimits, Ids;
    if !onSide {
      assert Ids(a.rest) + [] == Ids(a.rest) && Ids(c) + [] == Ids(c);
    } else if l.limits == [] {
      WithinSelf(Ids(l.limits));
      WithinConcat(Ids(a.rest), Ids(c), Ids(l.limits), Ids(l.limits));
    } else {
      WithinConcat(Ids(a.rest), Ids(c), Ids(h.moved) + Ids(h.rest), Ids(l.limits));
      IdsConcat(a.rest, h.moved);
      assert Ids(a.rest) + Ids(h.moved) + Ids(h.rest) == Ids(a.rest) + (Ids(h.moved) + Ids(h.rest));
      assert h.moved == [] ==> Ids(h.moved) == [] && [] + Ids(h.rest) == Ids(h.rest);
    }
  }

  /** Those who stay at a level, and those who step aside there, keep their order of priority. */
  lemma {:induction false} MatchKeepsOrder(book: seq<Level>, bids: bool, inside: nat, p: nat, limit: nat, size: nat,
          r: nat)
    requires OnBook(|book|, bids, p, limit) && 0 < r < |book|
    ensures var m := Match(book, bids, inside, p, limit, size);
      bids || !m.fault ==>
        Within(LevelQueue(m.book[r], bids, OnSide(bids, r, inside)), LevelQueue(book[r], bids, OnSide(bids, r, inside)))
    decreases if bids then p else |book| - p
  {
    hide HitLevel, Within, LevelQueue;
    WithinSelf(LevelQueue(book[r], bids, OnSide(bids, r, inside)));
    if size != 0 && InsideOf(bids, p, limit) {
      var h := HitLevel(book[p], bids, OnSide(bids, p, inside), p, size);
      var book1 := book[p := h.level];
      HitLevelKeepsOrder(book[p], bids, OnSide(bids, p, inside), p, size);
      MatchFrame(book1, bids, inside, Next(bids, p), limit, h.left);
      MatchKeepsOrder(book1, bids, inside, Next(bids, p), limit, h.left, r);
    }
  }

  /** An order of the given level and chain of the book trades no more than it has, and all of it if it
      is all-or-none. */
  ghost predicate Fits(book: seq<Level>, bids: bool, inside: nat, f: Fill) {
    && 0 < f.level < |book| && f.size > 0
    && ((exists b :: b in Chain(book[f.level], AonKind(bids)) && b.id == f.maker && b.sz == f.size)
        || (OnSide(bids, f.level, inside) &&
            exists b :: b in book[f.level].limits && b.id == f.maker && f.size <= b.sz
              && (IsAon(b) ==> f.size == b.sz)))
  }

  predicate Sized(c: seq<Bundle>) {
    forall b :: b in c ==> b.sz > 0
  }

  lemma {:induction false} HitAonsFit(c: seq<Bundle>, p: nat, size: nat, f: Fill)
    requires Sized(c) && f in HitAons(c, p, size).fills
    ensures f.level == p && f.size > 0 && exists b :: b in c && b.id == f.maker && b.sz == f.size
  {
    if c != [] && size != 0 {
      assert c[0] in c && forall b :: b in c[1..] ==> b in c;
      var size' := if size < c[0].sz then size else size - c[0].sz;
      if f in HitAons(c[1..], p, size').fills {
        HitAonsFit(c[1..], p, size', f);
      } else {
        assert c[0].id == f.maker && c[0].sz == f.size;
      }
    }
  }

  lemma {:induction false} HitLimitsFit(c: seq<Bundle>, p: nat, size: nat, f: Fill)
    requires Sized(c) && f in HitLimits(c, p, size).fills
    ensures f.level == p && f.size > 0
    ensures exists b :: b in c && b.id == f.maker && f.size <= b.sz && (IsAon(b) ==> f.size == b.sz)
  {
    if c != [] && size != 0 {
      assert c[0] in c && forall b :: b in c[1..] ==> b in c;
      if size < c[0].sz && !IsAon(c[0]) {
        assert c[0].id == f.maker && f.size == size;
      } else {
        var size' := if size < c[0].sz then size else size - c[0].sz;
        if f in HitLimits(c[1..], p, size').fills {
          HitLimitsFit(c[1..], p, size', f);
        } else {
          assert c[0].id == f.maker && c[0].sz == f.size;
        }
      }
    }
  }

  ghost predicate AllSized(book: seq<Level>) {
    forall r, k :: 0 <= r < |book| ==> Sized(Chain(book[r], k))
  }

  lemma HitLevelFits(book: seq<Level>, bids: bool, inside: nat, p: nat, size: nat, f: Fill)
    requires AllSized(book) && 0 < p < |book| && f in HitLevel(book[p], bids, OnSide(bids, p, inside), p, size).fills
    ensures f.level == p && Fits(book, bids, inside, f)
  {
    var a := HitAons(Chain(book[p], AonKind(bids)), p, size);
    assert Sized(Chain(book[p], AonKind(bids))) && Sized(Chain(book[p], Limits));
    if f in a.fills {
      HitAonsFit(Chain(book[p], AonKind(bids)), p, size, f);
    } else {
      HitLimitsFit(book[p].limits, p, a.left, f);
    }
  }

  /** No trade is at a level worse than the limit, and each is with an order that rested there. */
  lemma {:induction false} MatchFits(book: seq<Level>, book0: seq<Level>, bids: bool, inside: nat, p: nat, limit: nat,
          size: nat, f: Fill)
    requires OnBook(|book|, bids, p, limit) && |book0| == |book| && AllSized(book0)
    requires forall r :: 0 < r < |book| && Beyond(bids, p, r) ==> book[r] == book0[r]
    requires f in Match(book, bids, inside, p, limit, size).fills
    ensures InsideOf(bids, f.level, limit) && Beyond(bids, p, f.level) && Fits(book0, bids, inside, f)
    decreases if bids then p else |book| - p
  {
    if size != 0 && InsideOf(bids, p, limit) {
      var h := HitLevel(book[p], bids, OnSide(bids, p, inside), p, size);
      hide Fits;
      if f in h.fills {
        HitLevelFits(book0, bids, inside, p, size, f);
      } else {
        MatchFits(book[p := h.level], book0, bids, inside, Next(bids, p), limit, h.left, f);
      }
    }
  }
}
