/** A reference matcher: price-time priority by a plain walk over every level,
    best price first, with no cached edges. */
module Matcher {
  import opened Ladder

  /** A resting order traded at a level. */
  datatype Fill = Fill(level: nat, maker: nat, size: nat)

  /** What hitting one chain leaves: the chain, the AON orders to be moved to an
      AON chain, the fills in order, and the size still to trade. */
  datatype Hit = Hit(rest: seq<Bundle>, moved: seq<Bundle>, fills: seq<Fill>, left: nat)

  function Total(fills: seq<Fill>): nat {
    if fills == [] then 0 else fills[0].size + Total(fills[1..])
  }

  /** Every order of an AON chain that fits into what is left, oldest first. */
  function HitAons(chain: seq<Bundle>, p: nat, size: nat): (h: Hit)
    ensures h.left + Total(h.fills) == size && h.moved == []
  {
    if chain == [] || size == 0 then
      Hit(chain, [], [], size)
    else if size < chain[0].sz then
      var h := HitAons(chain[1..], p, size);
      h.(rest := [chain[0]] + h.rest)
    else
      var h := HitAons(chain[1..], p, size - chain[0].sz);
      h.(fills := [Fill(p, chain[0].id, chain[0].sz)] + h.fills)
  }

  /** First in, first out; an AON order larger than what is left steps aside. */
  function HitLimits(chain: seq<Bundle>, p: nat, size: nat): (h: Hit)
    ensures h.left + Total(h.fills) == size
  {
    if chain == [] || size == 0 then
      Hit(chain, [], [], size)
    else if size < chain[0].sz then
      if IsAon(chain[0]) then
        var h := HitLimits(chain[1..], p, size);
        h.(moved := [chain[0]] + h.moved)
      else
        Hit([Resized(chain[0], chain[0].sz - size)] + chain[1..], [], [Fill(p, chain[0].id, size)], 0)
    else
      var h := HitLimits(chain[1..], p, size - chain[0].sz);
      h.(fills := [Fill(p, chain[0].id, chain[0].sz)] + h.fills)
  }

  /** What hitting a level or a run of levels leaves. */
  datatype LevelHit = LevelHit(level: Level, fills: seq<Fill>, left: nat, fault: bool)
  datatype Outcome = Outcome(book: seq<Level>, fills: seq<Fill>, left: nat, fault: bool)

  /** The AON chain, then the limit chain if it is of this side. The source
      faults on a limit chain in two cases: it steps an iterator before the
      chain when the AON chain took everything, and it files an AON sell that
      steps aside under the buys. */
  function HitLevel(l: Level, bids: bool, onSide: bool, p: nat, size: nat): LevelHit {
    var a := HitAons(Chain(l, AonKind(bids)), p, size);
    var l1 := WithChain(l, AonKind(bids), a.rest);
    if onSide && l.limits != [] then
      var h := HitLimits(l.limits, p, a.left);
      LevelHit(l1.(limits := h.rest, aonBuys := l1.aonBuys + h.moved), a.fills + h.fills, h.left,
               a.left == 0 || (!bids && h.moved != []))
    else
      LevelHit(l1, a.fills, a.left, false)
  }

  /** A walk over a book of n levels is at p and is to end at limit. */
  predicate OnBook(n: nat, bids: bool, p: nat, limit: nat) {
    0 < limit < n && if bids then p < n else 0 < p <= n
  }

  /** All levels from p out to limit, while there is size left. */
  function Match(book: seq<Level>, bids: bool, inside: nat, p: nat, limit: nat, size: nat): (m: Outcome)
    requires OnBook(|book|, bids, p, limit)
    ensures |m.book| == |book|
    decreases if bids then p else |book| - p
  {
    if size == 0 || !InsideOf(bids, p, limit) then
      Outcome(book, [], size, false)
    else
      var h := HitLevel(book[p], bids, OnSide(bids, p, inside), p, size);
      var m := Match(book[p := h.level], bids, inside, Next(bids, p), limit, h.left);
      Outcome(m.book, h.fills + m.fills, m.left, h.fault || m.fault)
  }

  /** Nothing to hit on this side at level l. */
  predicate Quiet(l: Level, bids: bool, onSide: bool) {
    Chain(l, AonKind(bids)) == [] && (onSide ==> l.limits == [])
  }

  /** q is reached from p by walking outwards. */
  predicate Beyond(bids: bool, p: nat, q: nat) {
    if bids then q <= p else p <= q
  }

  /** Levels with nothing to hit can be jumped. */
  lemma {:induction false} MatchJump(book: seq<Level>, bids: bool, inside: nat, p: nat, q: nat, limit: nat, size: nat)
    requires OnBook(|book|, bids, p, limit)
    requires q <= |book| && Beyond(bids, p, q)
    requires forall r :: 0 < r < |book| && Beyond(bids, p, r) && Beyond(bids, r, q) && r != q ==>
      Quiet(book[r], bids, OnSide(bids, r, inside))
    ensures Match(book, bids, inside, p, limit, size) == Match(book, bids, inside, q, limit, size)
    decreases if bids then p else |book| - p
  {
    if p != q && size != 0 && InsideOf(bids, p, limit) {
      assert Quiet(book[p], bids, OnSide(bids, p, inside));
      assert HitLevel(book[p], bids, OnSide(bids, p, inside), p, size) == LevelHit(book[p], [], size, false);
      assert book[p := book[p]] == book;
      MatchJump(book, bids, inside, Next(bids, p), q, limit, size);
    }
  }

  /** A walk over levels with nothing to hit changes nothing. */
  lemma {:induction false} MatchQuiet(book: seq<Level>, bids: bool, inside: nat, p: nat, limit: nat, size: nat)
    requires OnBook(|book|, bids, p, limit)
    requires forall r :: 0 < r < |book| && Beyond(bids, p, r) && InsideOf(bids, r, limit) ==>
      Quiet(book[r], bids, OnSide(bids, r, inside))
    ensures Match(book, bids, inside, p, limit, size) == Outcome(book, [], size, false)
    decreases if bids then p else |book| - p
  {
    if size != 0 && InsideOf(bids, p, limit) {
      assert Quiet(book[p], bids, OnSide(bids, p, inside));
      assert HitLevel(book[p], bids, OnSide(bids, p, inside), p, size) == LevelHit(book[p], [], size, false);
      assert book[p := book[p]] == book;
      MatchQuiet(book, bids, inside, Next(bids, p), limit, size);
    }
  }

  lemma {:induction false} TotalConcat(f: seq<Fill>, g: seq<Fill>)
    ensures Total(f + g) == Total(f) + Total(g)
  {
    if f == [] {
      assert f + g == g;
    } else {
      assert (f + g)[1..] == f[1..] + g;
      TotalConcat(f[1..], g);
    }
  }

  /** Size is conserved: what was brought is traded or left. */
  lemma {:induction false} MatchConserves(book: seq<Level>, bids: bool, inside: nat, p: nat, limit: nat, size: nat)
    requires OnBook(|book|, bids, p, limit)
    ensures var m := Match(book, bids, inside, p, limit, size); m.left + Total(m.fills) == size
    decreases if bids then p else |book| - p
  {
    if size != 0 && InsideOf(bids, p, limit) {
      var h := HitLevel(book[p], bids, OnSide(bids, p, inside), p, size);
      var m := Match(book[p := h.level], bids, inside, Next(bids, p), limit, h.left);
      HitLevelConserves(book[p], bids, OnSide(bids, p, inside), p, size);
      MatchConserves(book[p := h.level], bids, inside, Next(bids, p), limit, h.left);
      TotalConcat(h.fills, m.fills);
    }
  }

  lemma HitLevelConserves(l: Level, bids: bool, onSide: bool, p: nat, size: nat)
    ensures var h := HitLevel(l, bids, onSide, p, size); h.left + Total(h.fills) == size
  {
    var a := HitAons(Chain(l, AonKind(bids)), p, size);
    TotalConcat(a.fills, HitLimits(l.limits, p, a.left).fills);
  }

  /** A match leaves alone the levels it does not visit, all stops, the other
      side's limit chains, and (on the bids) the other side's AON chains. */
  lemma {:induction false} MatchFrame(book: seq<Level>, bids: bool, inside: nat, p: nat, limit: nat, size: nat)
    requires OnBook(|book|, bids, p, limit)
    ensures var m := Match(book, bids, inside, p, limit, size);
            && |m.book| == |book|
            && (forall r :: 0 <= r < |book| ==> m.book[r].stops == book[r].stops)
            && (forall r :: 0 <= r < |book| && !OnSide(bids, r, inside) ==> m.book[r].limits == book[r].limits)
            && (forall r :: 0 <= r < |book| && !(Beyond(bids, p, r) && InsideOf(bids, r, limit)) ==>
              m.book[r] == book[r])
            && ((bids || !m.fault) ==> forall r :: 0 <= r < |book| ==>
                 Chain(m.book[r], AonKind(!bids)) == Chain(book[r], AonKind(!bids)))
    decreases if bids then p else |book| - p
  {
    if size != 0 && InsideOf(bids, p, limit) {
      var h := HitLevel(book[p], bids, OnSide(bids, p, inside), p, size);
      MatchFrame(book[p := h.level], bids, inside, Next(bids, p), limit, h.left);
    }
  }

  /** What is left of a match, computed by looking only. */
  function Left(book: seq<Level>, bids: bool, inside: nat, p: nat, limit: nat, size: nat): (left: nat)
    requires OnBook(|book|, bids, p, limit)
    ensures left <= size
    decreases if bids then p else |book| - p
  {
    if size == 0 || !InsideOf(bids, p, limit) then size
    else
      HitLevelConserves(book[p], bids, OnSide(bids, p, inside), p, size);
      Left(book, bids, inside, Next(bids, p), limit, HitLevel(book[p], bids, OnSide(bids, p, inside), p, size).left)
  }

  /** Looking ahead foretells the match: levels already passed do not matter. */
  lemma {:induction false} MatchLeft(book: seq<Level>, old_: seq<Level>, bids: bool, inside: nat, p: nat, limit: nat,
          size: nat)
    requires OnBook(|book|, bids, p, limit) && |old_| == |book|
    requires forall r :: 0 < r < |book| && Beyond(bids, p, r) ==> book[r] == old_[r]
    ensures Match(book, bids, inside, p, limit, size).left == Left(old_, bids, inside, p, limit, size)
    decreases if bids then p else |book| - p
  {
    if size != 0 && InsideOf(bids, p, limit) {
      var h := HitLevel(book[p], bids, OnSide(bids, p, inside), p, size);
      MatchLeft(book[p := h.level], old_, bids, inside, Next(bids, p), limit, h.left);
    }
  }

  /** No order within the limit could still trade: with size left, the limit
      chains are used up and every AON order is larger than what is left. */
  lemma {:induction false} MatchMaximal(book: seq<Level>, bids: bool, inside: nat, p: nat, limit: nat, size: nat,
          r: nat)
    requires OnBook(|book|, bids, p, limit)
    requires 0 < r < |book| && Beyond(bids, p, r) && InsideOf(bids, r, limit)
    ensures var m := Match(book, bids, inside, p, limit, size);
            (m.left > 0 && !m.fault) ==>
              && (OnSide(bids, r, inside) ==> m.book[r].limits == [])
              && forall b :: b in Chain(m.book[r], AonKind(bids)) ==> b.sz > m.left
    decreases if bids then p else |book| - p
  {
    if size != 0 && InsideOf(bids, p, limit) {
      var h := HitLevel(book[p], bids, OnSide(bids, p, inside), p, size);
      var m := Match(book[p := h.level], bids, inside, Next(bids, p), limit, h.left);
      if r == p {
        HitLevelMaximal(book[p], bids, OnSide(bids, p, inside), p, size);
        MatchFrame(book[p := h.level], bids, inside, Next(bids, p), limit, h.left);
        MatchConserves(book[p := h.level], bids, inside, Next(bids, p), limit, h.left);
      } else {
        MatchMaximal(book[p := h.level], bids, inside, Next(bids, p), limit, h.left, r);
      }
    }
  }

  lemma {:induction false} HitAonsMaximal(chain: seq<Bundle>, p: nat, size: nat)
    ensures var h := HitAons(chain, p, size); h.left > 0 ==> forall b :: b in h.rest ==> b.sz > h.left
  {
    if chain != [] && size != 0 {
      HitAonsMaximal(chain[1..], p, if size < chain[0].sz then size else size - chain[0].sz);
    }
  }

  lemma {:induction false} HitLimitsMaximal(chain: seq<Bundle>, p: nat, size: nat)
    ensures var h := HitLimits(chain, p, size);
      h.left > 0 ==> h.rest == [] && forall b :: b in h.moved ==> b.sz > h.left
  {
    if chain != [] && size != 0 {
      HitLimitsMaximal(chain[1..], p, if size < chain[0].sz then size else size - chain[0].sz);
    }
  }

  lemma HitLevelMaximal(l: Level, bids: bool, onSide: bool, p: nat, size: nat)
    ensures var h := HitLevel(l, bids, onSide, p, size);
            (h.left > 0 && !h.fault) ==>
              && (onSide ==> h.level.limits == [])
              && forall b :: b in Chain(h.level, AonKind(bids)) ==> b.sz > h.left
  {
    var a := HitAons(Chain(l, AonKind(bids)), p, size);
    HitAonsMaximal(Chain(l, AonKind(bids)), p, size);
    HitLimitsMaximal(l.limits, p, a.left);
  }

  /** What is left depends on the chains of the side being hit only. */
  lemma {:induction false} LeftSame(book: seq<Level>, book': seq<Level>, bids: bool, inside: nat, p: nat, limit: nat,
          size: nat)
    requires OnBook(|book|, bids, p, limit) && |book'| == |book|
    requires forall r :: 0 < r < |book| ==>
      book'[r].limits == book[r].limits && Chain(book'[r], AonKind(bids)) == Chain(book[r], AonKind(bids))
    ensures Left(book', bids, inside, p, limit, size) == Left(book, bids, inside, p, limit, size)
    decreases if bids then p else |book| - p
  {
    if size != 0 && InsideOf(bids, p, limit) {
      LeftSame(book, book', bids, inside, Next(bids, p), limit,
        HitLevel(book[p], bids, OnSide(bids, p, inside), p, size).left);
    }
  }
}
