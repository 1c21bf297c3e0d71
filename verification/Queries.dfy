/** The queries, which look between the cached edges only, against a plain scan
    of all levels that asks each order for its own side. */
module Queries {
  import opened Ladder
  import opened Matcher
  import opened Desk
  import opened Edges
  import opened Groundwork
  import opened Orderbook

  datatype Side = Buys | Sells | Both

  predicate OfSide(side: Side, isBuy: bool) {
    side.Both? || side.Buys? == isBuy
  }

  /** The size of the orders of a chain that are all-or-none, or are not. */
  function SizeIf(c: seq<Bundle>, aon: bool): nat {
    if c == [] then 0 else (if IsAon(c[0]) == aon then c[0].sz else 0) + SizeIf(c[1..], aon)
  }

  /** ... and are of a side, as their accounts have it. */
  ghost function SideSize(c: seq<Bundle>, ledger: map<nat, Account>, side: Side, aon: bool): nat {
    if c == [] then 0
    else
      var mine := IsAon(c[0]) == aon && c[0].id in ledger && OfSide(side, ledger[c[0].id].isBuy);
      (if mine then c[0].sz else 0) + SideSize(c[1..], ledger, side, aon)
  }

  /** The same for chain k of the first n levels. */
  ghost function Scan(book: seq<Level>, ledger: map<nat, Account>, side: Side, aon: bool, k: Kind, n: nat): nat
    requires n <= |book|
  {
    if n == 0 then 0 else Scan(book, ledger, side, aon, k, n - 1) + SideSize(Chain(book[n - 1], k), ledger, side, aon)
  }

  /** Chain k of level p counts in full, or not at all. */
  ghost predicate Counts(book: seq<Level>, ledger: map<nat, Account>, side: Side, aon: bool, k: Kind, p: nat)
    requires p < |book|
  {
    SideSize(Chain(book[p], k), ledger, side, aon) == SizeIf(Chain(book[p], k), aon)
  }

  lemma {:induction false} SizeFits(c: seq<Bundle>, ledger: map<nat, Account>, side: Side, aon: bool)
    requires forall b :: b in c ==> b.id in ledger && OfSide(side, ledger[b.id].isBuy)
    ensures SideSize(c, ledger, side, aon) == SizeIf(c, aon)
  {
    if c != [] {
      assert c[0] in c && forall b :: b in c[1..] ==> b in c;
      SizeFits(c[1..], ledger, side, aon);
    }
  }

  lemma {:induction false} SizeNone(c: seq<Bundle>, ledger: map<nat, Account>, side: Side, aon: bool)
    requires forall b :: b in c ==> b.id in ledger && !OfSide(side, ledger[b.id].isBuy)
    ensures SideSize(c, ledger, side, aon) == 0
  {
    if c != [] {
      assert c[0] in c && forall b :: b in c[1..] ==> b in c;
      SizeNone(c[1..], ledger, side, aon);
    }
  }

  lemma {:induction false} ScanSame(book: seq<Level>, ledger: map<nat, Account>, side: Side, aon: bool, k: Kind, m: nat,
          n: nat)
    requires m <= n <= |book|
    requires forall p :: m <= p < n ==> SideSize(Chain(book[p], k), ledger, side, aon) == 0
    ensures Scan(book, ledger, side, aon, k, m) == Scan(book, ledger, side, aon, k, n)
    decreases n
  {
    if m < n {
      ScanSame(book, ledger, side, aon, k, m, n - 1);
    }
  }

  /** A level of limit orders shows an order of a side that is not all-or-none. */
  ghost predicate Shows(l: Level, ledger: map<nat, Account>, bids: bool) {
    exists b :: b in l.limits && !IsAon(b) && b.id in ledger && ledger[b.id].isBuy == bids
  }

  /** p is the best level of a side that shows. */
  ghost predicate Top(book: seq<Level>, ledger: map<nat, Account>, bids: bool, p: nat) {
    && 0 < p < |book| && Shows(book[p], ledger, bids)
    && forall q :: 0 <= q < |book| && Shows(book[q], ledger, bids) ==> Beyond(bids, p, q)
  }

  /** Limit orders of a side lie within the edges of that side, and those there are of that side. */
  lemma LimitWindow(o: Book, p: nat)
    requires o.Idle() && p < |o.book|
    ensures forall b :: b in o.book[p].limits ==> b.id in o.ledger && b.sz > 0
    ensures forall b :: b in o.book[p].limits ==>
      (o.ledger[b.id].isBuy <==> o.LimitInWindow(true, p)) && (!o.ledger[b.id].isBuy <==> o.LimitInWindow(false, p))
    ensures 0 < o.lowBuyLimit && o.bid < |o.book| && o.highSellLimit < |o.book| && 0 < o.ask <= |o.book|
  {
    hide Named, Unique, Found, Queued, Audited, Handled, Posted, AonEdges, StopEdges, Volume;
    forall b | b in o.book[p].limits
      ensures b.id in o.ledger && b.sz > 0
    {
      AonTallies(o.D(), p, Limits, b);
    }
  }

  lemma AonWindow(o: Book, p: nat, bids: bool)
    requires o.Idle() && p < |o.book|
    ensures forall b :: b in Chain(o.book[p], AonKind(bids)) ==>
      b.id in o.ledger && o.ledger[b.id].isBuy == bids && o.AonInWindow(bids, p)
    ensures 0 < o.lowBuyAon && o.highBuyAon < |o.book| && 0 < o.lowSellAon && o.highSellAon < |o.book|
  {
    hide Named, Unique, Found, Sided, Queued, Audited, Handled, Posted, Gap, FarLimits, StopEdges, Volume;
    forall b | b in Chain(o.book[p], AonKind(bids))
      ensures b.id in o.ledger && o.ledger[b.id].isBuy == bids
    {
      AonTallies(o.D(), p, AonKind(bids), b);
    }
  }

  /** The levels of limit orders to look at for a side. */
  function LimitRange(o: Book, side: Side): (nat, nat)
    reads o
  {
    match side
    case Buys => (o.lowBuyLimit, o.bid)
    case Sells => (o.ask, o.highSellLimit)
    case Both => (Min(o.lowBuyLimit, o.ask), Max(o.highSellLimit, o.bid))
  }

  /** The levels of AON chains to look at for a side. */
  function AonRange(o: Book, side: Side): (nat, nat)
    reads o
  {
    match side
    case Buys => (o.lowBuyAon, o.highBuyAon)
    case Sells => (o.lowSellAon, o.highSellAon)
    case Both => (Min(o.lowBuyAon, o.lowSellAon), Max(o.highSellAon, o.highBuyAon))
  }

  function Min(a: nat, b: nat): nat {
    if a <= b then a else b
  }

  function Max(a: nat, b: nat): nat {
    if a >= b then a else b
  }

  lemma LimitCounts(o: Book, side: Side, aon: bool, p: nat)
    requires o.Idle() && p < |o.book|
    ensures var r := LimitRange(o, side);
      if r.0 <= p <= r.1 then Counts(o.book, o.ledger, side, aon, Limits, p)
      else SideSize(Chain(o.book[p], Limits), o.ledger, side, aon) == 0
    ensures LimitRange(o, side).0 > 0 && LimitRange(o, side).1 < |o.book|
  {
    hide Book.Idle;
    LimitWindow(o, p);
    var r := LimitRange(o, side);
    if r.0 <= p <= r.1 {
      SizeFits(o.book[p].limits, o.ledger, side, aon);
    } else {
      SizeNone(o.book[p].limits, o.ledger, side, aon);
    }
  }

  lemma AonCounts(o: Book, side: Side, bids: bool, p: nat)
    requires o.Idle() && p < |o.book| && OfSide(side, bids)
    ensures var r := AonRange(o, side);
      if r.0 <= p <= r.1 then Counts(o.book, o.ledger, side, true, AonKind(bids), p)
      else SideSize(Chain(o.book[p], AonKind(bids)), o.ledger, side, true) == 0
    ensures AonRange(o, side).0 > 0 && AonRange(o, side).1 < |o.book|
  {
    hide Book.Idle;
    AonWindow(o, p, true);
    AonWindow(o, p, false);
    var r := AonRange(o, side);
    if r.0 <= p <= r.1 {
      SizeFits(Chain(o.book[p], AonKind(bids)), o.ledger, side, true);
    }
  }

  /** The sizes of the chains of levels h down to l, which are all that count. */
  method SumLevels(book: seq<Level>, ghost ledger: map<nat, Account>, ghost side: Side, aon: bool, k: Kind, l: nat,
          h: nat) returns (tot: nat)
    requires 0 < l && h < |book|
    requires forall p :: 0 <= p < |book| ==>
      if l <= p <= h then Counts(book, ledger, side, aon, k, p) else SideSize(Chain(book[p], k), ledger, side, aon) == 0
    ensures tot == Scan(book, ledger, side, aon, k, |book|)
  {
    hide SideSize, SizeIf;
    tot := 0;
    var p: nat := h;
    ScanSame(book, ledger, side, aon, k, h + 1, |book|);
    while p >= l
      invariant p <= h && (p < h ==> l <= p + 1)
        && tot + Scan(book, ledger, side, aon, k, p + 1) == Scan(book, ledger, side, aon, k, |book|)
      decreases p
    {
      tot := tot + SizeIf(Chain(book[p], k), aon);
      p := p - 1;
    }
    ScanSame(book, ledger, side, aon, k, 0, p + 1);
  }

  /** Total size of the limit orders of a side, those that are all-or-none or those that are not. */
  method TotalDepth(o: Book, side: Side, aon: bool) returns (tot: nat)
    requires o.Idle()
    ensures tot == Scan(o.book, o.ledger, side, aon, Limits, |o.book|)
      + (if aon && OfSide(side, true) then Scan(o.book, o.ledger, side, true, AonBuys, |o.book|) else 0)
      + (if aon && OfSide(side, false) then Scan(o.book, o.ledger, side, true, AonSells, |o.book|) else 0)
  {
    hide Book.Idle, Counts, LimitRange, AonRange, Scan;
    var r := LimitRange(o, side);
    Priced(o);
    LimitCounts(o, side, aon, 0);
    forall p | 0 <= p < |o.book| {
      LimitCounts(o, side, aon, p);
    }
    tot := SumLevels(o.book, o.ledger, side, aon, Limits, r.0, r.1);
    if aon {
      r := AonRange(o, side);
      if OfSide(side, true) {
        var buys := AonDepth(o, side, true);
        tot := tot + buys;
      }
      if OfSide(side, false) {
        var sells := AonDepth(o, side, false);
        tot := tot + sells;
      }
    }
  }

  method AonDepth(o: Book, side: Side, bids: bool) returns (tot: nat)
    requires o.Idle() && OfSide(side, bids)
    ensures tot == Scan(o.book, o.ledger, side, true, AonKind(bids), |o.book|)
  {
    hide Book.Idle, Counts, AonRange, Scan;
    var r := AonRange(o, side);
    Priced(o);
    AonCounts(o, side, bids, 0);
    forall p | 0 <= p < |o.book| {
      AonCounts(o, side, bids, p);
    }
    tot := SumLevels(o.book, o.ledger, side, true, AonKind(bids), r.0, r.1);
  }

  /** At least one order of the chain is not all-or-none. */
  predicate AnyPlain(c: seq<Bundle>) {
    exists b :: b in c && !IsAon(b)
  }

  /** The price of the best limit order of a side that is not all-or-none, 0 if there is none. */
  method InsidePrice(o: Book, bids: bool) returns (price: int)
    requires o.Idle()
    ensures price == 0 ==> forall p :: 0 <= p < |o.book| ==> !Shows(o.book[p], o.ledger, bids)
    ensures price != 0 ==> exists p: nat :: Top(o.book, o.ledger, bids, p) && price == o.Itop(p)
  {
    hide Book.Idle;
    var side := if bids then Buys else Sells;
    var r := LimitRange(o, side);
    var p: nat := o.Best(bids);
    forall q | 0 <= q < |o.book| ensures Shows(o.book[q], o.ledger, bids) <==>
      r.0 <= q <= r.1 && AnyPlain(o.book[q].limits) {
      LimitWindow(o, q);
    }
    Priced(o);
    LimitWindow(o, 0);
    while r.0 <= p <= r.1
      invariant Beyond(bids, o.Best(bids), p) && 0 <= p <= |o.book|
      invariant forall q :: 0 <= q < |o.book| && Shows(o.book[q], o.ledger, bids) ==> Beyond(bids, p, q)
      decreases if bids then p else |o.book| - p
    {
      if AnyPlain(o.book[p].limits) {
        assert Top(o.book, o.ledger, bids, p);
        return o.Itop(p);
      }
      p := Next(bids, p);
    }
    price := 0;
  }

  /** The size of the best limit orders of a side that are not all-or-none, 0 if there are none. */
  method InsideSize(o: Book, bids: bool) returns (tot: nat)
    requires o.Idle()
    ensures tot == 0 ==> forall p :: 0 <= p < |o.book| ==> !Shows(o.book[p], o.ledger, bids)
    ensures tot != 0 ==>
      exists p: nat :: Top(o.book, o.ledger, bids, p)
        && tot == SideSize(o.book[p].limits, o.ledger, if bids then Buys else Sells, false)
  {
    hide Book.Idle;
    var side := if bids then Buys else Sells;
    var r := LimitRange(o, side);
    var p: nat := o.Best(bids);
    Priced(o);
    LimitWindow(o, 0);
    forall q | 0 <= q < |o.book| ensures Shows(o.book[q], o.ledger, bids) <==>
      r.0 <= q <= r.1 && AnyPlain(o.book[q].limits) {
      LimitWindow(o, q);
    }
    tot := 0;
    while r.0 <= p <= r.1
      invariant Beyond(bids, o.Best(bids), p) && 0 <= p <= |o.book|
      invariant forall q :: 0 <= q < |o.book| && Shows(o.book[q], o.ledger, bids) ==> Beyond(bids, p, q)
      decreases if bids then p else |o.book| - p
    {
      tot := SizeIf(o.book[p].limits, false);
      LimitWindow(o, p);
      SizePlain(o.book[p].limits);
      if tot != 0 {
        assert Top(o.book, o.ledger, bids, p);
        SizeFits(o.book[p].limits, o.ledger, side, false);
        return;
      }
      p := Next(bids, p);
    }
    tot := 0;
  }

  lemma {:induction false} SizePlain(c: seq<Bundle>)
    requires forall b :: b in c ==> b.sz > 0
    ensures SizeIf(c, false) > 0 <==> AnyPlain(c)
  {
    if c != [] {
      assert c[0] in c && forall b :: b in c <==> b == c[0] || b in c[1..];
      SizePlain(c[1..]);
    }
  }

  lemma Priced(o: Book)
    requires o.Idle()
    ensures o.base > 0 && |o.book| > 1 && o.book[0] == VACANT
  {
    hide Named, Unique, Found, Tallied, Sided, Queued, Audited, Handled, Posted, Covered, Volume;
  }
}
