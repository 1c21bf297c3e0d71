/** The book is given more levels, above or below, and every level keeps its price. */
module Growth {
  import opened Ladder
  import opened Desk
  import opened Edges

  /** How far levels move when the book grows. */
  function Offset(incr: nat, below: bool): nat {
    if below then incr else 0
  }

  function Vacancies(n: nat): (r: seq<Level>)
    ensures |r| == n && forall i :: 0 <= i < n ==> r[i] == VACANT
  {
    seq(n, _ => VACANT)
  }

  function Grown(book: seq<Level>, incr: nat, below: bool): (r: seq<Level>)
    ensures |r| == |book| + incr
    ensures forall p :: 0 <= p < |r| ==>
      r[p] == if 0 <= p - Offset(incr, below) < |book| then book[p - Offset(incr, below)] else VACANT
  {
    if below then Vacancies(incr) + book else book + Vacancies(incr)
  }

  function Moved(cache: map<nat, Place>, off: nat): (r: map<nat, Place>)
    ensures r.Keys == cache.Keys
    ensures forall id :: id in cache ==> r[id] == Place(cache[id].kind, cache[id].level + off)
  {
    map id | id in cache :: Place(cache[id].kind, cache[id].level + off)
  }

  /** An edge that is reset when it is below the book. */
  function Low(p: nat, off: nat): nat {
    if p == 0 then 0 else p + off
  }

  /** An edge that is reset when it is at the end of a book of n levels. */
  function High(p: nat, n: nat, incr: nat, off: nat): nat {
    if p == n then n + incr else p + off
  }

  function GrownEdges(e: Edge, n: nat, incr: nat, off: nat): Edge {
    Edge(Low(e.bid, off), High(e.ask, n, incr, off), High(e.lowBuyLimit, n, incr, off), Low(e.highSellLimit, off),
         High(e.lowBuyAon, n, incr, off), Low(e.highBuyAon, off), High(e.lowSellAon, n, incr, off),
           Low(e.highSellAon, off),
         High(e.lowBuyStop, n, incr, off), Low(e.highBuyStop, off), High(e.lowSellStop, n, incr, off),
           Low(e.highSellStop, off))
  }

  function GrownBooks(d: Books, incr: nat, below: bool): Books {
    var off := Offset(incr, below);
    d.(book := Grown(d.book, incr, below), bid := Low(d.bid, off), ask := High(d.ask, |d.book|, incr, off),
      cache := Moved(d.cache, off))
  }

  /** The stop windows move with their levels, no wider than they were; and passes to come, from where
      the last trade has moved to, sweep what they would have swept. */
  lemma GrownWindows(e: Edge, n: nat, incr: nat, off: nat, q: nat, last: nat)
    requires Window(n, e.lowBuyStop, e.highBuyStop) && Window(n, e.lowSellStop, e.highSellStop)
    requires 0 < last < n && off <= incr
    ensures var g := GrownEdges(e, n, incr, off);
      && (g.lowBuyStop <= q <= g.highBuyStop <==> e.lowBuyStop <= q - off <= e.highBuyStop)
      && (g.lowSellStop <= q <= g.highSellStop <==> e.lowSellStop <= q - off <= e.highSellStop)
      && (g.lowBuyStop <= q <= last + off <==> e.lowBuyStop <= q - off <= last)
      && (last + off <= q <= g.highSellStop <==> last <= q - off <= e.highSellStop)
  {
  }

  /** Where a level of the grown book that is not vacant was. */
  lemma Was(book: seq<Level>, incr: nat, below: bool, p: nat)
    requires |book| > 0 && book[0] == VACANT && p < |book| + incr && Grown(book, incr, below)[p] != VACANT
    ensures 0 < p - Offset(incr, below) < |book| && Grown(book, incr, below)[p] == book[p - Offset(incr, below)]
  {
  }

  /** ... and so is the order. */
  lemma WasIn(book: seq<Level>, incr: nat, below: bool, p: nat, k: Kind, b: Bundle)
    requires |book| > 0 && book[0] == VACANT && p < |book| + incr && b in Chain(Grown(book, incr, below)[p], k)
    ensures var q := p - Offset(incr, below); 0 < q < |book| && b in Chain(book[q], k)
  {
    Was(book, incr, below, p);
  }

  lemma NamedAt(book: seq<Level>, cache: map<nat, Place>, p: nat, k: Kind, b: Bundle)
    requires Named(book, cache) && p < |book| && b in Chain(book[p], k)
    ensures b.id in cache && cache[b.id] == Place(k, p)
  {
  }

  lemma GrownNamedAt(book: seq<Level>, cache: map<nat, Place>, incr: nat, below: bool, p: nat, k: Kind, b: Bundle)
    requires |book| > 0 && book[0] == VACANT && Named(book, cache)
    requires p < |book| + incr && b in Chain(Grown(book, incr, below)[p], k)
    ensures b.id in cache && Moved(cache, Offset(incr, below))[b.id] == Place(k, p)
  {
    hide Grown, Named;
    WasIn(book, incr, below, p, k, b);
    NamedAt(book, cache, p - Offset(incr, below), k, b);
  }

  lemma GrownNamed(book: seq<Level>, cache: map<nat, Place>, incr: nat, below: bool)
    requires |book| > 0 && book[0] == VACANT && Named(book, cache)
    ensures Named(Grown(book, incr, below), Moved(cache, Offset(incr, below)))
  {
    var book' := Grown(book, incr, below);
    var cache' := Moved(cache, Offset(incr, below));
    hide Grown, Moved;
    forall p, k, b | 0 <= p < |book'| && b in Chain(book'[p], k) ensures b.id in cache' && cache'[b.id] == Place(k, p) {
      GrownNamedAt(book, cache, incr, below, p, k, b);
    }
  }

  lemma GrownUnique(book: seq<Level>, incr: nat, below: bool)
    requires |book| > 0 && book[0] == VACANT && Unique(book)
    ensures Unique(Grown(book, incr, below))
  {
    var book' := Grown(book, incr, below);
    forall p, k | 0 <= p < |book'| ensures Distinct(Chain(book'[p], k)) {
      if book'[p] != VACANT {
        Was(book, incr, below, p);
        assert Distinct(Chain(book[p - Offset(incr, below)], k));
      }
    }
  }

  lemma GrownFound(book: seq<Level>, cache: map<nat, Place>, incr: nat, below: bool)
    requires Found(book, cache)
    ensures Found(Grown(book, incr, below), Moved(cache, Offset(incr, below)))
  {
    hide Grown;
    var book' := Grown(book, incr, below);
    var off := Offset(incr, below);
    var cache' := Moved(cache, off);
    forall id | id in cache' ensures cache'[id].level < |book'|
      && Holds(Chain(book'[cache'[id].level], cache'[id].kind), id) {
      assert book'[cache[id].level + off] == book[cache[id].level];
    }
  }

  lemma GrownTallied(book: seq<Level>, ledger: map<nat, Account>, incr: nat, below: bool)
    requires |book| > 0 && book[0] == VACANT && Tallied(book, ledger)
    ensures Tallied(Grown(book, incr, below), ledger)
  {
    hide Grown;
    var book' := Grown(book, incr, below);
    forall p, k, b | 0 <= p < |book'| && b in Chain(book'[p], k) ensures b.id in ledger && Tallies(b, k, ledger[b.id]) {
      WasIn(book, incr, below, p, k, b);
    }
  }

  lemma GrownSided(book: seq<Level>, ledger: map<nat, Account>, bid: nat, ask: nat, incr: nat, below: bool)
    requires |book| > 0 && book[0] == VACANT && Sided(book, ledger, bid, ask)
    ensures Sided(Grown(book, incr, below), ledger, Low(bid, Offset(incr, below)),
      High(ask, |book|, incr, Offset(incr, below)))
  {
    hide Grown;
    var book' := Grown(book, incr, below);
    forall p, b | 0 <= p < |book'| && b in book'[p].limits && b.id in ledger
      ensures if ledger[b.id].isBuy then p <= Low(bid, Offset(incr, below))
        else p >= High(ask, |book|, incr, Offset(incr, below))
    {
      WasIn(book, incr, below, p, Limits, b);
    }
  }

  lemma GrownPad(book: seq<Level>, incr: nat, below: bool)
    requires |book| > 0 && book[0] == VACANT
    ensures Grown(book, incr, below)[0] == VACANT
  {
  }

  lemma GrownOk(d: Books, incr: nat, below: bool)
    requires Ok(d)
    ensures Ok(GrownBooks(d, incr, below))
  {
    hide Named, Unique, Found, Tallied, Sided, Queued, Posted, Grown, Low, High;
    GrownNamed(d.book, d.cache, incr, below);
    GrownUnique(d.book, incr, below);
    GrownFound(d.book, d.cache, incr, below);
    GrownTallied(d.book, d.ledger, incr, below);
    GrownSided(d.book, d.ledger, d.bid, d.ask, incr, below);
    assert GrownBooks(d, incr, below).book[0] == VACANT by {
      GrownPad(d.book, incr, below);
    }
  }

  lemma GrownLimits(book: seq<Level>, e: Edge, incr: nat, below: bool)
    requires |book| > 1 && book[0] == VACANT && Gap(book, e.bid, e.ask)
      && FarLimits(book, e.bid, e.ask, e.lowBuyLimit, e.highSellLimit)
    ensures var e' := GrownEdges(e, |book|, incr, Offset(incr, below)); var book' := Grown(book, incr, below);
      Gap(book', e'.bid, e'.ask) && FarLimits(book', e'.bid, e'.ask, e'.lowBuyLimit, e'.highSellLimit)
  {
    var book' := Grown(book, incr, below);
    var off := Offset(incr, below);
    forall p | 0 <= p < |book'| && book'[p].limits != []
      ensures 0 < p - off < |book| && book[p - off].limits != []
    {
      Was(book, incr, below, p);
    }
  }

  lemma GrownAons(book: seq<Level>, k: Kind, lo: nat, hi: nat, incr: nat, below: bool)
    requires |book| > 1 && book[0] == VACANT && Window(|book|, lo, hi) && AonsWithin(book, k, lo, hi)
    ensures var off := Offset(incr, below); var book' := Grown(book, incr, below);
      Window(|book'|, High(lo, |book|, incr, off), Low(hi, off)) && AonsWithin(book', k, High(lo, |book|, incr, off),
        Low(hi, off))
  {
    var book' := Grown(book, incr, below);
    var off := Offset(incr, below);
    forall p | 0 <= p < |book'| && Chain(book'[p], k) != []
      ensures 0 < p - off < |book| && Chain(book[p - off], k) != []
    {
      Was(book, incr, below, p);
    }
  }

  lemma GrownStops(book: seq<Level>, buys: bool, lo: nat, hi: nat, incr: nat, below: bool)
    requires |book| > 1 && book[0] == VACANT && Window(|book|, lo, hi) && StopsWithin(book, buys, lo, hi)
    ensures var off := Offset(incr, below); var book' := Grown(book, incr, below);
      Window(|book'|, High(lo, |book|, incr, off), Low(hi, off)) && StopsWithin(book', buys,
        High(lo, |book|, incr, off), Low(hi, off))
  {
    var book' := Grown(book, incr, below);
    var off := Offset(incr, below);
    forall p | 0 <= p < |book'| && HasStop(book'[p], buys)
      ensures 0 < p - off < |book| && HasStop(book[p - off], buys)
    {
      Was(book, incr, below, p);
    }
  }

  lemma GrownCovered(book: seq<Level>, e: Edge, incr: nat, below: bool)
    requires |book| > 1 && book[0] == VACANT && Covered(book, e)
    ensures Covered(Grown(book, incr, below), GrownEdges(e, |book|, incr, Offset(incr, below)))
  {
    hide Gap, FarLimits, Window, AonsWithin, StopsWithin, Grown, Low, High;
    GrownLimits(book, e, incr, below);
    GrownAons(book, AonBuys, e.lowBuyAon, e.highBuyAon, incr, below);
    GrownAons(book, AonSells, e.lowSellAon, e.highSellAon, incr, below);
    GrownStops(book, true, e.lowBuyStop, e.highBuyStop, incr, below);
    GrownStops(book, false, e.lowSellStop, e.highSellStop, incr, below);
  }

  /** Every resting order is where the grown cache says, and its level has the price it had. */
  lemma GrownKeeps(d: Books, base: nat, min: nat, incr: nat, below: bool, id: nat)
    requires Ok(d) && id in d.cache && min + Offset(incr, below) == base
    ensures var d' := GrownBooks(d, incr, below);
      && Located(d.book, d.cache, id) && Located(d'.book, d'.cache, id)
      && BundleOf(d'.book, d'.cache, id) == BundleOf(d.book, d.cache, id)
      && min + d'.cache[id].level - 1 == base + d.cache[id].level - 1
      && d'.cache[id].kind == d.cache[id].kind
  {
    hide Ok;
    GrownOk(d, incr, below);
    InPlace(d, id);
    InPlace(GrownBooks(d, incr, below), id);
  }
}
