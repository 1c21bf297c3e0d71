/** The all-or-none orders of one side that overlap a limit price of the other. */
module Overlaps {
  import opened Ladder
  import opened Desk

  /** An all-or-none order and the level it rests at. */
  datatype Overlap = Overlap(level: nat, bundle: Bundle)

  function Tagged(p: nat, c: seq<Bundle>): (r: seq<Overlap>)
    ensures |r| == |c| && forall i :: 0 <= i < |c| ==> r[i] == Overlap(p, c[i])
  {
    if c == [] then [] else [Overlap(p, c[0])] + Tagged(p, c[1..])
  }

  /** A walk from p towards the inside of the other side. */
  predicate Reaching(n: nat, bids: bool, p: nat) {
    if bids then 0 < p <= n else p < n
  }

  /** From p on, the AON orders of a side that reach p or better, oldest first within a level. */
  function Overlapped(book: seq<Level>, bids: bool, p: nat): seq<Overlap>
    requires Reaching(|book|, bids, p)
    decreases if bids then |book| - p else p
  {
    if p == (if bids then |book| else 0) then []
    else Tagged(p, Chain(book[p], AonKind(bids))) + Overlapped(book, bids, Next(!bids, p))
  }

  /** The overlaps are there. */
  ghost predicate Standing(book: seq<Level>, bids: bool, os: seq<Overlap>) {
    forall j :: 0 <= j < |os| ==> 0 < os[j].level < |book| && os[j].bundle in Chain(book[os[j].level], AonKind(bids))
  }

  ghost predicate Separate(os: seq<Overlap>) {
    forall i, j :: 0 <= i < j < |os| ==> os[i].bundle.id != os[j].bundle.id
  }

  /** The walk finds every overlapping order, and nothing else. */
  lemma {:induction false} OverlappedIff(book: seq<Level>, bids: bool, p: nat, q: nat, b: Bundle)
    requires Reaching(|book|, bids, p)
    ensures Overlap(q, b) in Overlapped(book, bids, p) <==>
      0 < q < |book| && InsideOf(bids, q, p) && b in Chain(book[q], AonKind(bids))
    decreases if bids then |book| - p else p
  {
    if p != (if bids then |book| else 0) {
      var c := Chain(book[p], AonKind(bids));
      OverlappedIff(book, bids, Next(!bids, p), q, b);
      assert Overlap(q, b) in Tagged(p, c) <==> q == p && b in c by {
        if b in c {
          var i :| 0 <= i < |c| && c[i] == b;
          assert Tagged(p, c)[i] == Overlap(p, b);
        }
      }
    }
  }

  lemma OverlapsStand(book: seq<Level>, bids: bool, p: nat)
    requires Reaching(|book|, bids, p)
    ensures Standing(book, bids, Overlapped(book, bids, p))
  {
    var os := Overlapped(book, bids, p);
    forall j | 0 <= j < |os| ensures 0 < os[j].level < |book|
      && os[j].bundle in Chain(book[os[j].level], AonKind(bids)) {
      OverlappedIff(book, bids, p, os[j].level, os[j].bundle);
      assert os[j] in os;
    }
  }

  predicate Leveled(n: nat, os: seq<Overlap>) {
    forall o :: o in os ==> 0 < o.level < n
  }

  lemma OverlapsLeveled(book: seq<Level>, bids: bool, p: nat)
    requires Reaching(|book|, bids, p)
    ensures Leveled(|book|, Overlapped(book, bids, p))
  {
    OverlapsStand(book, bids, p);
  }

  lemma SeparateConcat(a: seq<Overlap>, b: seq<Overlap>)
    requires Separate(a) && Separate(b)
    requires forall x, y :: x in a && y in b ==> x.bundle.id != y.bundle.id
    ensures Separate(a + b)
  {
    var c := a + b;
    assert forall i :: 0 <= i < |c| ==> c[i] == if i < |a| then a[i] else b[i - |a|];
  }

  /** ... each once, as the cache has it. */
  lemma {:induction false} OverlappedOnce(book: seq<Level>, cache: map<nat, Place>, bids: bool, p: nat)
    requires Reaching(|book|, bids, p) && Named(book, cache) && Unique(book)
    ensures Separate(Overlapped(book, bids, p))
    decreases if bids then |book| - p else p
  {
    hide Named, Unique;
    if p != (if bids then |book| else 0) {
      var k := AonKind(bids);
      var rest := Overlapped(book, bids, Next(!bids, p));
      OverlappedOnce(book, cache, bids, Next(!bids, p));
      assert Separate(Tagged(p, Chain(book[p], k))) by {
        ChainDistinct(book, p, k);
      }
      forall x, y | x in Tagged(p, Chain(book[p], k)) && y in rest ensures x.bundle.id != y.bundle.id {
        OverlappedIff(book, bids, Next(!bids, p), y.level, y.bundle);
        Elsewhere(book, cache, k, p, x.bundle, y.level, y.bundle);
      }
      SeparateConcat(Tagged(p, Chain(book[p], k)), rest);
    }
  }

  lemma ChainDistinct(book: seq<Level>, p: nat, k: Kind)
    requires Unique(book) && p < |book|
    ensures Distinct(Chain(book[p], k))
  {
  }

  lemma Elsewhere(book: seq<Level>, cache: map<nat, Place>, k: Kind, p: nat, x: Bundle, q: nat, y: Bundle)
    requires Named(book, cache) && p < |book| && q < |book| && p != q
    requires x in Chain(book[p], k) && y in Chain(book[q], k)
    ensures x.id != y.id
  {
  }

  lemma {:induction false} NoOverlaps(book: seq<Level>, bids: bool, p: nat)
    requires Reaching(|book|, bids, p)
    requires forall q :: 0 < q < |book| && InsideOf(bids, q, p) ==> Chain(book[q], AonKind(bids)) == []
    ensures Overlapped(book, bids, p) == []
    decreases if bids then |book| - p else p
  {
    if p != (if bids then |book| else 0) {
      NoOverlaps(book, bids, Next(!bids, p));
    }
  }

  /** The chains of kind k are the same in both books. */
  ghost predicate SameChains(book: seq<Level>, book': seq<Level>, k: Kind) {
    |book'| == |book| && forall p :: 0 <= p < |book| ==> Chain(book'[p], k) == Chain(book[p], k)
  }

  /** The orders of kind k are those of book but id. */
  ghost predicate ButFor(book: seq<Level>, book': seq<Level>, k: Kind, id: nat) {
    |book'| == |book| && forall p, b :: 0 <= p < |book| ==>
      (b in Chain(book'[p], k) <==> b in Chain(book[p], k) && b.id != id)
  }

  lemma StillStanding(book: seq<Level>, book': seq<Level>, bids: bool, os: seq<Overlap>)
    requires Separate(os) && Standing(book, bids, os) && os != []
    requires ButFor(book, book', AonKind(bids), os[|os| - 1].bundle.id)
    ensures Standing(book', bids, os[..|os| - 1]) && Separate(os[..|os| - 1])
  {
  }

  /** Taking id out of the book leaves the others. */
  lemma CutButFor(book: seq<Level>, cache: map<nat, Place>, id: nat, k: Kind)
    requires Named(book, cache) && Unique(book) && Located(book, cache, id)
    ensures ButFor(book, Cut(book, cache, id), k, id)
  {
    var p := cache[id].level;
    var k' := cache[id].kind;
    var c := Chain(book[p], k');
    var i := IndexOf(c, id);
    ChainDistinct(book, p, k');
    WithoutChain(c, i);
    forall q, b | 0 <= q < |book| ensures b in Chain(Cut(book, cache, id)[q], k) <==>
      b in Chain(book[q], k) && b.id != id {
      if q != p || k != k' {
        hide Unique, Distinct, IndexOf;
        assert b in Chain(book[q], k) ==> cache[b.id] == Place(k, q);
      }
    }
  }

  lemma SameButFor(book: seq<Level>, book': seq<Level>, book'': seq<Level>, k: Kind, id: nat)
    requires ButFor(book, book', k, id) && SameChains(book', book'', k)
    ensures ButFor(book, book'', k, id)
  {
    forall p, b | 0 <= p < |book| ensures b in Chain(book''[p], k) <==> b in Chain(book[p], k) && b.id != id {
      hide Chain;
      assert Chain(book''[p], k) == Chain(book'[p], k);
      assert b in Chain(book'[p], k) <==> b in Chain(book[p], k) && b.id != id;
    }
  }

  /** A resting order is the one the cache leads to. */
  lemma TheBundle(book: seq<Level>, cache: map<nat, Place>, p: nat, k: Kind, b: Bundle)
    requires Named(book, cache) && Unique(book) && 0 < p < |book| && b in Chain(book[p], k)
    ensures Located(book, cache, b.id) && cache[b.id] == Place(k, p) && BundleOf(book, cache, b.id) == b
  {
    assert cache[b.id] == Place(k, p);
    ChainDistinct(book, p, k);
    hide Named, Unique;
    Indexed(Chain(book[p], k), b);
  }

  lemma Indexed(c: seq<Bundle>, b: Bundle)
    requires Distinct(c) && b in c
    ensures var j := IndexOf(c, b.id); j < |c| && c[j] == b
  {
    var i :| 0 <= i < |c| && c[i] == b;
    var j := IndexOf(c, b.id);
  }
}
