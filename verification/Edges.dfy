/** The cached edges of the book and what they promise about a plain scan. */
module Edges {
  import opened Ladder
  import opened Matcher

  /** The internal pointers, as levels: 0 is the pad below the book, |book| its end. */
  datatype Edge = Edge(bid: nat, ask: nat, lowBuyLimit: nat, highSellLimit: nat,
                       lowBuyAon: nat, highBuyAon: nat, lowSellAon: nat, highSellAon: nat,
                       lowBuyStop: nat, highBuyStop: nat, lowSellStop: nat, highSellStop: nat)

  /** The limit chains at or below the bid and at or above the ask are all there are. */
  ghost predicate Gap(book: seq<Level>, bid: nat, ask: nat) {
    && bid < ask <= |book|
    && forall p :: 0 <= p < |book| && book[p].limits != [] ==> p <= bid || p >= ask
  }

  /** ... and the inside levels are not empty. */
  ghost predicate Inside(book: seq<Level>, bid: nat, ask: nat) {
    && Gap(book, bid, ask)
    && (bid > 0 ==> book[bid].limits != [])
    && (ask < |book| ==> book[ask].limits != [])
  }

  /** A window of levels is in the book, or reset. */
  predicate Window(n: nat, lo: nat, hi: nat) {
    0 < lo <= n && hi < n && (lo <= hi || (lo == n && hi == 0))
  }

  /** The far edges of the limit chains cover them and are reset when there are none. */
  ghost predicate FarLimits(book: seq<Level>, bid: nat, ask: nat, low: nat, high: nat) {
    && 0 < low <= |book| && high < |book|
    && (forall p :: 0 <= p < |book| && book[p].limits != [] ==> (p <= bid ==> low <= p) && (p >= ask ==> p <= high))
    && (bid == 0 ==> low == |book|)
    && (ask == |book| ==> high == 0)
  }

  ghost predicate AonsWithin(book: seq<Level>, k: Kind, lo: nat, hi: nat) {
    forall p :: 0 <= p < |book| && Chain(book[p], k) != [] ==> lo <= p <= hi
  }

  predicate HasStop(l: Level, buys: bool) {
    exists b :: b in l.stops && b.Stop? && b.isBuy == buys
  }

  ghost predicate StopsWithin(book: seq<Level>, buys: bool, lo: nat, hi: nat) {
    forall p :: 0 <= p < |book| && HasStop(book[p], buys) ==> lo <= p <= hi
  }

  ghost predicate AonEdges(book: seq<Level>, e: Edge) {
    && Window(|book|, e.lowBuyAon, e.highBuyAon) && AonsWithin(book, AonBuys, e.lowBuyAon, e.highBuyAon)
    && Window(|book|, e.lowSellAon, e.highSellAon) && AonsWithin(book, AonSells, e.lowSellAon, e.highSellAon)
  }

  ghost predicate StopEdges(book: seq<Level>, e: Edge) {
    && Window(|book|, e.lowBuyStop, e.highBuyStop) && StopsWithin(book, true, e.lowBuyStop, e.highBuyStop)
    && Window(|book|, e.lowSellStop, e.highSellStop) && StopsWithin(book, false, e.lowSellStop, e.highSellStop)
  }

  /** The edges cover every chain. */
  ghost predicate Covered(book: seq<Level>, e: Edge) {
    && Gap(book, e.bid, e.ask) && FarLimits(book, e.bid, e.ask, e.lowBuyLimit, e.highSellLimit)
    && AonEdges(book, e) && StopEdges(book, e)
  }

  /* Where the source starts and ends hitting a side. */

  function Inner(e: Edge, bids: bool): nat {
    if bids then e.bid else e.ask
  }

  function BeginOf(e: Edge, bids: bool): nat {
    if bids then if e.bid >= e.highBuyAon then e.bid else e.highBuyAon
    else if e.ask <= e.lowSellAon then e.ask else e.lowSellAon
  }

  function EndOf(e: Edge, bids: bool): nat {
    if bids then if e.lowBuyLimit <= e.lowBuyAon then e.lowBuyLimit else e.lowBuyAon
    else if e.highSellLimit >= e.highSellAon then e.highSellLimit else e.highSellAon
  }

  /** Everything to hit on a side lies from BeginOf to EndOf. */
  lemma QuietOutside(book: seq<Level>, e: Edge, bids: bool, r: nat)
    requires Covered(book, e)
    requires r < |book| && (!Beyond(bids, BeginOf(e, bids), r) || !InsideOf(bids, r, EndOf(e, bids)))
    ensures Quiet(book[r], bids, OnSide(bids, r, Inner(e, bids)))
  {
  }
}
