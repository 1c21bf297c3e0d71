/** What requests and growth do to a floor, one event after the other, with no cache to find
    orders by. */
module Worlds {
  import opened Ladder
  import opened Desk
  import opened Reference
  import opened Growth
  import opened Groundwork
  import opened Faults

  /* ---- where an order rests ---- */

  /** Where id rests, below level n; level 0 if it does not. */
  ghost function Spot(book: seq<Level>, id: nat, n: nat): (r: Place)
    requires n <= |book|
    ensures r.level <= n
  {
    if n == 0 then Place(Limits, 0)
    else if Holds(book[n - 1].limits, id) then Place(Limits, n - 1)
    else if Holds(book[n - 1].stops, id) then Place(Stops, n - 1)
    else if Holds(book[n - 1].aonBuys, id) then Place(AonBuys, n - 1)
    else if Holds(book[n - 1].aonSells, id) then Place(AonSells, n - 1)
    else Spot(book, id, n - 1)
  }

  /** The order id rests somewhere in the book. */
  ghost predicate Rests(book: seq<Level>, id: nat) {
    Spot(book, id, |book|).level > 0
  }

  /** A cache for one order. */
  ghost function Only(book: seq<Level>, id: nat): map<nat, Place> {
    map[id := Spot(book, id, |book|)]
  }

  lemma {:induction false} SpotIs(book: seq<Level>, id: nat, n: nat, p: nat, k: Kind)
    requires n <= |book| && 0 < p < |book| && Holds(Chain(book[p], k), id)
    requires forall q, k' :: 0 <= q < |book| && Holds(Chain(book[q], k'), id) ==> q == p && k' == k
    ensures Spot(book, id, n) == if p < n then Place(k, p) else Place(Limits, 0)
  {
    if n > 0 {
      hide Holds;
      var l := book[n - 1];
      assert Chain(l, Limits) == l.limits && Chain(l, Stops) == l.stops;
      assert Chain(l, AonBuys) == l.aonBuys && Chain(l, AonSells) == l.aonSells;
      SpotIs(book, id, n - 1, p, k);
    }
  }

  lemma {:induction false} SpotNone(book: seq<Level>, id: nat, n: nat)
    requires n <= |book| && forall q, k :: 0 <= q < |book| ==> !Holds(Chain(book[q], k), id)
    ensures Spot(book, id, n) == Place(Limits, 0)
  {
    if n > 0 {
      hide Holds;
      var l := book[n - 1];
      assert Chain(l, Limits) == l.limits && Chain(l, Stops) == l.stops;
      assert Chain(l, AonBuys) == l.aonBuys && Chain(l, AonSells) == l.aonSells;
      SpotNone(book, id, n - 1);
    }
  }

  lemma {:induction false} SpotThere(book: seq<Level>, id: nat, n: nat)
    requires n <= |book| && Spot(book, id, n).level > 0
    ensures var r := Spot(book, id, n); r.level < n && Holds(Chain(book[r.level], r.kind), id)
  {
    if n > 0 {
      var l := book[n - 1];
      if !Holds(l.limits, id) && !Holds(l.stops, id) && !Holds(l.aonBuys, id) && !Holds(l.aonSells, id) {
        SpotThere(book, id, n - 1);
      }
    }
  }

  lemma {:induction false} IndexThere(c: seq<Bundle>, id: nat)
    requires Holds(c, id)
    ensures IndexOf(c, id) < |c|
  {
  }

  /** An order that rests can be located by its spot. */
  lemma OnlyLocated(book: seq<Level>, id: nat)
    requires Rests(book, id)
    ensures Located(book, Only(book, id), id)
  {
    SpotThere(book, id, |book|);
    var r := Spot(book, id, |book|);
    IndexThere(Chain(book[r.level], r.kind), id);
  }

  lemma HeldOnce(book: seq<Level>, cache: map<nat, Place>, id: nat)
    requires Named(book, cache)
    ensures forall q, k :: 0 <= q < |book| && Holds(Chain(book[q], k), id) ==> id in cache && cache[id] == Place(k, q)
  {
  }

  lemma HeldThere(book: seq<Level>, cache: map<nat, Place>, id: nat)
    requires Found(book, cache) && id in cache
    ensures cache[id].level < |book| && Holds(Chain(book[cache[id].level], cache[id].kind), id)
  {
  }

  /** The cache of a book agrees with the spots of its orders. */
  lemma CacheSpots(d: Books, id: nat)
    requires Ok(d)
    ensures id in d.cache <==> Rests(d.book, id)
    ensures id in d.cache ==> Located(d.book, d.cache, id) && Spot(d.book, id, |d.book|) == d.cache[id]
  {
    hide Named, Unique, Found, Tallied, Sided, Queued, Audited, Handled, Posted, Holds;
    HeldOnce(d.book, d.cache, id);
    if id in d.cache {
      InPlace(d, id);
      HeldThere(d.book, d.cache, id);
      SpotIs(d.book, id, |d.book|, d.cache[id].level, d.cache[id].kind);
    } else {
      SpotNone(d.book, id, |d.book|);
    }
  }

  /** Pulling depends on where the order rests only. */
  lemma PulledBySpot(f: Floor, cache: map<nat, Place>, id: nat)
    requires Located(f.book, cache, id)
    ensures var m := map[id := cache[id]];
      Located(f.book, m, id) && PulledFloor(f, m, id) == PulledFloor(f, cache, id)
      && (PullFaults(f.book, m, f.ask, id) <==> PullFaults(f.book, cache, f.ask, id))
  {
    hide Outward, StopGone, LimitsHit, FrontAons;
  }

  /* ---- how many stops rest ---- */

  function StopCount(book: seq<Level>): nat {
    if book == [] then 0 else |book[0].stops| + StopCount(book[1..])
  }

  function IdsOf(c: seq<Bundle>): (r: set<nat>)
    ensures forall b :: b in c ==> b.id in r
  {
    if c == [] then {} else {c[0].id} + IdsOf(c[1..])
  }

  lemma {:induction false} FewIds(c: seq<Bundle>)
    ensures |IdsOf(c)| <= |c|
  {
    if c != [] {
      FewIds(c[1..]);
    }
  }

  function StopsIn(book: seq<Level>): set<nat> {
    if book == [] then {} else IdsOf(book[0].stops) + StopsIn(book[1..])
  }

  lemma {:induction false} FewStops(book: seq<Level>)
    ensures |StopsIn(book)| <= StopCount(book)
  {
    if book != [] {
      FewIds(book[0].stops);
      FewStops(book[1..]);
    }
  }

  lemma {:induction false} StopsAreIn(book: seq<Level>, p: nat, b: Bundle)
    requires p < |book| && b in book[p].stops
    ensures b.id in StopsIn(book)
  {
    if p > 0 {
      StopsAreIn(book[1..], p - 1, b);
    }
  }

  lemma StopsCounted(d: Books)
    requires Ok(d)
    ensures |StopIds(d.cache)| <= StopCount(d.book)
  {
    hide Named, Unique, Tallied, Sided, Queued, Audited, Handled, Posted;
    forall id | id in StopIds(d.cache) ensures id in StopsIn(d.book) {
      var p := d.cache[id].level;
      var b :| b in Chain(d.book[p], Stops) && b.id == id;
      StopsAreIn(d.book, p, b);
    }
    assert StopsIn(d.book) == StopIds(d.cache) + (StopsIn(d.book) - StopIds(d.cache));
    FewStops(d.book);
  }

  /* ---- events ---- */

  /** What happens to a book: requests, and growth. */
  datatype Event = Ask(req: Request) | Above(max: nat) | Below(min: nat)

  /** A floor and its lowest price, and whether the source faults. */
  datatype World = World(f: Floor, base: nat, fault: bool)

  /** As many orders as may enter in a window, and more. */
  function Bound(f: Floor): nat {
    StopCount(f.book) + 1
  }

  /** As many orders as the queue can bring in. */
  function Upcoming(f: Floor): nat {
    StopCount(f.book) + |f.queue|
  }

  /** The order id is taken out, if it rests. */
  ghost function Removed(f: Floor, id: nat): (r: Passed)
    ensures |r.f.book| == |f.book|
  {
    if !Rests(f.book, id) then Passed(f, 0, false)
    else
      OnlyLocated(f.book, id);
      var m := Only(f.book, id);
      if PullFaults(f.book, m, f.ask, id) then Passed(f, 0, true) else Passed(PulledFloor(f, m, id), 0, false)
  }

  ghost function Asked(f: Floor, base: nat, req: Request): (w: World)
    requires |f.book| > 1
    ensures |w.f.book| == |f.book| && w.base == base
  {
    match req
    case Enter(t) =>
      if !Acceptable(t, base, |f.book|) then World(f, base, false)
      else
        var r := Windowed(f, t, base, Bound(f));
        World(r.f, base, r.fault)
    case Withdraw(id) =>
      var r := Removed(f, id);
      World(r.f, base, r.fault)
    case ReplaceBy(id, t) =>
      if !Acceptable(t, base, |f.book|) || !Rests(f.book, id) then World(f, base, false)
      else
        var r := Removed(f, id);
        if r.fault then World(r.f, base, true)
        else
          var r' := Windowed(r.f, t, base, Bound(f));
          World(r'.f, base, r'.fault)
  }

  /** The floor with incr more levels. */
  function GrownFloor(f: Floor, incr: nat, below: bool): (r: Floor)
    ensures |r.book| == |f.book| + incr
  {
    var off := Offset(incr, below);
    var n := |f.book|;
    f.(book := Grown(f.book, incr, below), bid := Low(f.bid, off), ask := High(f.ask, n, incr, off),
       lowBuyStop := High(f.lowBuyStop, n, incr, off), highBuyStop := Low(f.highBuyStop, off),
       lowSellStop := High(f.lowSellStop, n, incr, off), highSellStop := Low(f.highSellStop, off),
       last := Low(f.last, off))
  }

  ghost function Happened(f: Floor, base: nat, e: Event): (w: World)
    requires |f.book| > 1
    ensures |w.f.book| >= |f.book|
  {
    match e
    case Ask(req) => Asked(f, base, req)
    case Above(max) =>
      var top := base + |f.book| - 2;
      World(if max > top then GrownFloor(f, max - top, false) else f, base, false)
    case Below(min) =>
      var newBase := if min < 1 then 1 else min;
      if newBase < base then World(GrownFloor(f, base - newBase, true), newBase, false) else World(f, base, false)
  }

  /** A floor lives through events until one faults. */
  ghost function Lived(f: Floor, base: nat, events: seq<Event>): (w: World)
    requires |f.book| > 1
    ensures |w.f.book| >= |f.book|
  {
    if events == [] then World(f, base, false)
    else
      var w := Lived(f, base, events[..|events| - 1]);
      if w.fault then w else Happened(w.f, w.base, events[|events| - 1])
  }

  /** What makes an event fault, told by looking: an order, external or internal, on whose way
      through the book there is a hazardous level, or a pull that frees an all-or-none sell. */
  ghost predicate Faulty(f: Floor, base: nat, e: Event)
    requires |f.book| > 1
  {
    e.Ask? && (
      match e.req
      case Enter(t) => Acceptable(t, base, |f.book|) && WindowFaults(f, t, base, Bound(f))
      case Withdraw(id) => FreesSell(f, id)
      case ReplaceBy(id, t) =>
        Acceptable(t, base, |f.book|) && Rests(f.book, id)
        && (FreesSell(f, id) || WindowFaults(Removed(f, id).f, t, base, Bound(f))))
  }

  /** Removed id an all-or-none sell would be first of its limit chain. */
  ghost predicate FreesSell(f: Floor, id: nat) {
    Rests(f.book, id) &&
      var r := Spot(f.book, id, |f.book|);
      && r.kind == Limits && r.level >= f.ask && r.level < |f.book|
      && IndexOf(f.book[r.level].limits, id) < |f.book[r.level].limits|
        && FrontAons(Without(f.book[r.level].limits, IndexOf(f.book[r.level].limits, id))) > 0
  }

  lemma FreesSellIff(f: Floor, id: nat)
    ensures Removed(f, id).fault <==> FreesSell(f, id)
  {
    if Rests(f.book, id) {
      OnlyLocated(f.book, id);
      hide PulledFloor, FrontAons;
    }
  }

  /** Exactly which events fault. */
  lemma HappenedFaultsIff(f: Floor, base: nat, e: Event)
    requires |f.book| > 1
    ensures Happened(f, base, e).fault <==> Faulty(f, base, e)
  {
    hide Windowed, WindowFaults, Removed, FreesSell, Acceptable, Rests;
    if e.Ask? {
      match e.req {
        case Enter(t) =>
          if Acceptable(t, base, |f.book|) {
            WindowFaultsIff(f, t, base, Bound(f));
          }
        case Withdraw(id) => FreesSellIff(f, id);
        case ReplaceBy(id, t) =>
          FreesSellIff(f, id);
          if Acceptable(t, base, |f.book|) {
            WindowFaultsIff(Removed(f, id).f, t, base, Bound(f));
          }
      }
    }
  }
}
