/** The price ladder: levels, the order bundles resting on them, and the
    direction in which each side of the book is walked. */
module Ladder {

  /** An order inside a chain. A resting limit order may be all-or-none; a stop
      keeps its side and the limit price it turns into (0: a market order). */
  datatype Bundle =
    | Resting(id: nat, sz: nat, aon: bool)
    | Stop(id: nat, sz: nat, isBuy: bool, limit: nat)

  predicate IsAon(b: Bundle) {
    b.Resting? && b.aon
  }

  function Resized(b: Bundle, sz: nat): Bundle {
    match b
    case Resting(id, _, aon) => Resting(id, sz, aon)
    case Stop(id, _, isBuy, limit) => Stop(id, sz, isBuy, limit)
  }

  datatype Kind = Limits | Stops | AonBuys | AonSells

  /** What the id cache records of an order: the chain it is in. */
  datatype Place = Place(kind: Kind, level: nat)

  datatype Level = Level(limits: seq<Bundle>, stops: seq<Bundle>, aonBuys: seq<Bundle>, aonSells: seq<Bundle>)

  const VACANT := Level([], [], [], [])

  function Chain(l: Level, k: Kind): seq<Bundle> {
    match k
    case Limits => l.limits
    case Stops => l.stops
    case AonBuys => l.aonBuys
    case AonSells => l.aonSells
  }

  function WithChain(l: Level, k: Kind, c: seq<Bundle>): (r: Level)
    ensures forall k' :: Chain(r, k') == if k' == k then c else Chain(l, k')
  {
    match k
    case Limits => l.(limits := c)
    case Stops => l.(stops := c)
    case AonBuys => l.(aonBuys := c)
    case AonSells => l.(aonSells := c)
  }

  /** The AON chain of the side being hit. */
  function AonKind(bids: bool): Kind {
    if bids then AonBuys else AonSells
  }

  /* The bids are walked downwards, the asks upwards. */

  /** p is at limit or nearer the inside. */
  predicate InsideOf(bids: bool, p: nat, limit: nat) {
    if bids then p >= limit else p <= limit
  }

  function Next(bids: bool, p: nat): nat
    requires bids ==> p > 0
  {
    if bids then p - 1 else p + 1
  }

  /** The limit chain at p belongs to the side being hit, whose best level is inside. */
  predicate OnSide(bids: bool, p: nat, inside: nat) {
    if bids then p <= inside else p >= inside
  }

  /** The first level a walk over a whole book of n levels visits. */
  function Outermost(bids: bool, n: nat): nat
    requires n > 1
  {
    if bids then n - 1 else 1
  }
}
