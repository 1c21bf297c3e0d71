/** What an execution window does, told without a cache, without all-or-none windows and
    without far edges: every operation is a function of what the book holds, and the order
    book is proved to compute just these functions. */
module Reference {
  import opened Ladder
  import opened Matcher
  import opened Desk
  import opened Overlaps
  import opened Sweep

  /** Everything later windows depend on: the chains, the inside levels, the stop windows, the
      tape, the level of the last trade, whether stops are still to be checked, the internal
      queue and the last id given out. */
  datatype Floor = Floor(book: seq<Level>, bid: nat, ask: nat,
                         lowBuyStop: nat, highBuyStop: nat, lowSellStop: nat, highSellStop: nat,
                         tape: seq<Sale>, last: nat, check: bool, queue: seq<Ticket>, lastId: nat)

  /** What a step leaves: the floor, the size still open, and whether the source faults. */
  datatype Passed = Passed(f: Floor, left: nat, fault: bool)

  /** A floor on which nothing has happened yet, of the levels 1 to n - 1. */
  function Opening(n: nat): (f: Floor)
    ensures |f.book| == n && forall p :: 0 <= p < n ==> f.book[p] == VACANT
  {
    Floor(seq(n, _ => VACANT), 0, n, n, 0, n, 0, [], 0, false, [], 0)
  }

  function SalesOf(fills: seq<Fill>, taker: nat, base: nat): seq<Sale> {
    if fills == [] then []
    else [Sale(base + fills[0].level - 1, fills[0].size, taker, fills[0].maker)] + SalesOf(fills[1..], taker, base)
  }

  lemma {:induction false} SalesConcat(f: seq<Fill>, g: seq<Fill>, taker: nat, base: nat)
    ensures SalesOf(f + g, taker, base) == SalesOf(f, taker, base) + SalesOf(g, taker, base)
  {
    if f == [] {
      assert f + g == g;
    } else {
      assert (f + g)[1..] == f[1..] + g;
      SalesConcat(f[1..], g, taker, base);
    }
  }

  lemma SalesPush(fills: seq<Fill>, f: Fill, taker: nat, base: nat)
    ensures SalesOf(fills + [f], taker, base) ==
      SalesOf(fills, taker, base) + [Sale(base + f.level - 1, f.size, taker, f.maker)]
  {
    SalesConcat(fills, [f], taker, base);
    assert SalesOf([f][1..], taker, base) == [];
  }

  lemma NoSales(taker: nat, base: nat)
    ensures SalesOf([], taker, base) == []
  {
  }

  lemma {:induction false} SalesCount(fills: seq<Fill>, taker: nat, base: nat)
    ensures |SalesOf(fills, taker, base)| == |fills|
  {
    if fills != [] {
      SalesCount(fills[1..], taker, base);
    }
  }

  /* ---- matching ---- */

  /** The inside level of a side. */
  function InsideLevel(f: Floor, bids: bool): nat {
    if bids then f.bid else f.ask
  }

  /** The first level from p outwards with limit orders; the end of the book if there is none. */
  function Outward(book: seq<Level>, bids: bool, p: nat): (q: nat)
    ensures Beyond(bids, p, q)
    decreases if bids then p else |book| - p
  {
    if bids then
      if p == 0 || (p < |book| && book[p].limits != []) then p else Outward(book, bids, p - 1)
    else
      if p >= |book| || book[p].limits != [] then p else Outward(book, bids, p + 1)
  }

  /** The level of the last of some trades, or the one before them. */
  function LastLevel(fills: seq<Fill>, last: nat): nat {
    if fills == [] then last else fills[|fills| - 1].level
  }

  /** id is matched with a side of the book, up to level plev. */
  function Matched(f: Floor, bids: bool, plev: nat, id: nat, size: nat, base: nat): (r: Passed)
    requires 0 < plev < |f.book|
    ensures |r.f.book| == |f.book| && r.f.queue == f.queue && r.f.lastId == f.lastId
  {
    var m := Match(f.book, bids, InsideLevel(f, bids), Outermost(bids, |f.book|), plev, size);
    Passed(f.(book := m.book,
              bid := if bids then Outward(m.book, true, f.bid) else f.bid,
              ask := if bids then f.ask else Outward(m.book, false, f.ask),
              tape := f.tape + SalesOf(m.fills, id, base),
              last := LastLevel(m.fills, f.last),
              check := f.check || m.fills != []),
           m.left, m.fault)
  }

  /** The stops that a check takes out: buy stops upwards from the lowest to the last price, then
      sell stops downwards from the highest, whole chains at a time. */
  function DueStops(f: Floor): seq<Bundle> {
    SweptUp(f.book, f.lowBuyStop, f.last) + SweptDown(Swept(f.book, f.lowBuyStop, f.last), f.highSellStop, f.last)
  }

  /** The buy stop window once the levels up to last were taken out. */
  function UpWindow(n: nat, low: nat, high: nat, last: nat): (nat, nat) {
    if low > last then (low, high) else if last + 1 > high then (n, 0) else (last + 1, high)
  }

  /** The sell stop window once the levels down to last were taken out. */
  function DownWindow(n: nat, low: nat, high: nat, last: nat): (nat, nat) {
    if high < last then (low, high) else if last < low + 1 then (n, 0) else (low, last - 1)
  }

  /** Stops are checked: those taken out are queued under new ids, in that order. */
  function Checked(f: Floor): (r: Floor)
    ensures |r.book| == |f.book|
  {
    var buys := UpWindow(|f.book|, f.lowBuyStop, f.highBuyStop, f.last);
    var sells := DownWindow(|f.book|, f.lowSellStop, f.highSellStop, f.last);
    f.(book := Swept(Swept(f.book, f.lowBuyStop, f.last), f.last, f.highSellStop),
       lowBuyStop := buys.0, highBuyStop := buys.1, lowSellStop := sells.0, highSellStop := sells.1,
       queue := f.queue + Tickets(DueStops(f), f.lastId), lastId := f.lastId + |DueStops(f)|, check := false)
  }

  /** Stops are checked if a trade asked for it. */
  function Settled(f: Floor): (r: Floor)
    ensures |r.book| == |f.book|
  {
    if f.check then Checked(f) else f
  }

  /** id is sent to a side of the book: it is matched, then stops are checked. */
  function Sent(f: Floor, bids: bool, plev: nat, id: nat, size: nat, base: nat): (r: Passed)
    requires 0 < plev < |f.book|
    ensures |r.f.book| == |f.book|
  {
    var r := Matched(f, bids, plev, id, size, base);
    r.(f := Settled(r.f))
  }

  /** What sending an order would leave of it, by looking only. */
  function Looked(f: Floor, bids: bool, plev: nat, size: nat): (left: nat)
    requires 0 < plev < |f.book|
    ensures left <= size
  {
    Left(f.book, bids, InsideLevel(f, bids), Outermost(bids, |f.book|), plev, size)
  }

  /** Looking ahead foretells what sending the order leaves. */
  lemma LookedSent(f: Floor, bids: bool, plev: nat, id: nat, size: nat, base: nat)
    requires 0 < plev < |f.book|
    ensures Looked(f, bids, plev, size) == Sent(f, bids, plev, id, size, base).left
  {
    hide Match, Left;
    MatchLeft(f.book, f.book, bids, InsideLevel(f, bids), Outermost(bids, |f.book|), plev, size);
  }

  /* ---- all-or-none orders ---- */

  /** The book without the overlapping AON order of a side. */
  function Pull(book: seq<Level>, bids: bool, o: Overlap): (r: seq<Level>)
    requires o.level < |book|
    ensures |r| == |book|
  {
    var c := Chain(book[o.level], AonKind(bids));
    var i := IndexOf(c, o.bundle.id);
    if i < |c| then SetChain(book, o.level, AonKind(bids), Without(c, i)) else book
  }

  /** The last trade of an AON order, if the book did not suffice. */
  function Closing(p: nat, base: nat, taker: nat, maker: nat, left: nat): seq<Sale> {
    if left == 0 then [] else [Sale(base + p - 1, left, taker, maker)]
  }

  /** What the book leaves of an overlapping AON order is nothing, or the new order can take it. */
  predicate Suffices(aon: bool, left: nat, rmndr: nat) {
    left == 0 || (if aon then left == rmndr else left < rmndr)
  }

  /** An AON order takes what the book left of it from the new order, at level p. */
  function Closed(f: Floor, p: nat, taker: nat, maker: nat, left: nat, base: nat): (r: Floor)
    ensures r.book == f.book
  {
    if left == 0 then f else f.(tape := f.tape + Closing(p, base, taker, maker, left), last := p, check := true)
  }

  /** An overlapping AON order is taken out of the book of its side and sent to the other. */
  function Executed(f: Floor, bids: bool, o: Overlap, base: nat): (r: Passed)
    requires 0 < o.level < |f.book|
    ensures |r.f.book| == |f.book|
  {
    Sent(f.(book := Pull(f.book, !bids, o)), bids, o.level, o.bundle.id, o.bundle.sz, base)
  }

  /** The order is of the side opposite to the one it is sent to, so looking ahead foretells
      what is left of it even before it is taken out. */
  lemma ExecutedLeft(f: Floor, bids: bool, o: Overlap, base: nat)
    requires 0 < o.level < |f.book|
    ensures Executed(f, bids, o, base).left == Looked(f, bids, o.level, o.bundle.sz)
  {
    hide Match, Left, Sent;
    var f1 := f.(book := Pull(f.book, !bids, o));
    LeftSame(f.book, f1.book, bids, InsideLevel(f, bids), Outermost(bids, |f.book|), o.level, o.bundle.sz);
    LookedSent(f1, bids, o.level, o.bundle.id, o.bundle.sz, base);
  }

  /** AON orders overlapping a new order of the side bids, last to first: one is executed
      if the book suffices, or the book with the new order, which must then be used up if
      it is all-or-none itself and must not be if it is not. */
  function PrePass(f: Floor, bids: bool, os: seq<Overlap>, p: nat, id: nat, aon: bool, rmndr: nat,
          base: nat): (r: Passed)
    requires Leveled(|f.book|, os)
    ensures |r.f.book| == |f.book| && r.left <= rmndr && (aon && !r.fault ==> r.left == 0 || r.left == rmndr)
    decreases |os|
  {
    if os == [] || rmndr == 0 then Passed(f, rmndr, false)
    else
      var o := os[|os| - 1];
      var rest := os[..|os| - 1];
      var left := Looked(f, bids, o.level, o.bundle.sz);
      if Suffices(aon, left, rmndr) then
        var r := Executed(f, bids, o, base);
        if r.fault then Passed(r.f, 0, true)
        else PrePass(Closed(r.f, p, o.bundle.id, id, left, base), bids, rest, p, id, aon, rmndr - left, base)
      else PrePass(f, bids, rest, p, id, aon, rmndr, base)
  }

  /** AON orders overlapping an order of the side bids that rests now, last to first:
      one is executed if the book suffices. */
  function PostPass(f: Floor, bids: bool, os: seq<Overlap>, base: nat): (r: Passed)
    requires Leveled(|f.book|, os)
    ensures |r.f.book| == |f.book|
    decreases |os|
  {
    if os == [] then Passed(f, 0, false)
    else
      var o := os[|os| - 1];
      var rest := os[..|os| - 1];
      if Looked(f, bids, o.level, o.bundle.sz) == 0 then
        var r := Executed(f, bids, o, base);
        if r.fault then Passed(r.f, 0, true) else PostPass(r.f, bids, rest, base)
      else PostPass(f, bids, rest, base)
  }

  /** All overlapping all-or-none orders before a new order at p crosses. */
  function PreOf(f: Floor, isBuy: bool, p: nat, id: nat, sz: nat, aon: bool, base: nat): (r: Passed)
    requires 0 < p < |f.book|
    ensures |r.f.book| == |f.book| && r.left <= sz && (aon && !r.fault ==> r.left == 0 || r.left == sz)
  {
    OverlapsLeveled(f.book, !isBuy, p);
    PrePass(f, isBuy, Overlapped(f.book, !isBuy, p), p, id, aon, sz, base)
  }

  /** All overlapping all-or-none orders once a new order rests at p. */
  function PostOf(f: Floor, isBuy: bool, p: nat, base: nat): (r: Passed)
    requires 0 < p < |f.book|
    ensures |r.f.book| == |f.book|
  {
    OverlapsLeveled(f.book, !isBuy, p);
    PostPass(f, isBuy, Overlapped(f.book, !isBuy, p), base)
  }

  /* ---- orders enter ---- */

  /** A limit or all-or-none order of a side rests at p or better. */
  ghost predicate Tradable(f: Floor, bids: bool, p: nat) {
    || OnSide(bids, p, InsideLevel(f, bids))
    || exists q :: 0 < q < |f.book| && InsideOf(bids, q, p) && Chain(f.book[q], AonKind(bids)) != []
  }

  /** A new order crosses the book if there is anything to cross; an all-or-none order only if
      that fills it. */
  ghost function Crossed(f: Floor, isBuy: bool, p: nat, id: nat, size: nat, aon: bool, base: nat): (r: Passed)
    requires 0 < p < |f.book|
    ensures |r.f.book| == |f.book|
  {
    if Tradable(f, !isBuy, p) && (aon ==> Looked(f, !isBuy, p, size) == 0) then Sent(f, !isBuy, p, id, size, base)
    else Passed(f, size, false)
  }

  /** Where what is left of a new order rests: an all-or-none order that is crossed, or
      would be first on its limit chain, goes to an AON chain. */
  function RestKind(f: Floor, isBuy: bool, p: nat, aon: bool): Kind
    requires p < |f.book|
  {
    if aon && (OnSide(!isBuy, p, InsideLevel(f, !isBuy)) || f.book[p].limits == []) then AonKind(isBuy) else Limits
  }

  /** An order rests on a limit chain, and may be the new inside. */
  function LimitRested(f: Floor, isBuy: bool, p: nat, b: Bundle): (r: Floor)
    requires 0 < p < |f.book|
    ensures |r.book| == |f.book|
  {
    f.(book := Pushed(f.book, p, Limits, b),
       bid := if isBuy && p >= f.bid then p else f.bid,
       ask := if !isBuy && p <= f.ask then p else f.ask)
  }

  /** What is left of a new order rests. */
  function Rested(f: Floor, isBuy: bool, p: nat, id: nat, sz: nat, aon: bool): (r: Floor)
    requires 0 < p < |f.book|
    ensures |r.book| == |f.book|
  {
    var k := RestKind(f, isBuy, p, aon);
    if k == Limits then LimitRested(f, isBuy, p, Resting(id, sz, aon))
      else f.(book := Pushed(f.book, p, k, Resting(id, sz, aon)))
  }

  /** What is left of a new order crosses the book, then it rests and the overlapping
      all-or-none orders are tried again; left is what came to rest. */
  ghost function EnterPass(f: Floor, isBuy: bool, p: nat, id: nat, left: nat, aon: bool, base: nat): (r: Passed)
    requires 0 < p < |f.book|
    ensures |r.f.book| == |f.book|
  {
    var m := Crossed(f, isBuy, p, id, left, aon, base);
    if m.fault || m.left == 0 then m.(left := 0)
    else PostOf(Rested(m.f, isBuy, p, id, m.left, aon), isBuy, p, base).(left := m.left)
  }

  /** A new limit order at p: overlapping all-or-none orders first, then the book. */
  ghost function LimitPass(f: Floor, isBuy: bool, p: nat, id: nat, sz: nat, aon: bool, base: nat): (r: Passed)
    requires 0 < p < |f.book|
    ensures |r.f.book| == |f.book|
  {
    var pre := PreOf(f, isBuy, p, id, sz, aon, base);
    if pre.fault || pre.left == 0 then pre else EnterPass(pre.f, isBuy, p, id, pre.left, aon, base)
  }

  /** A new market order; what is left of it is the shortfall in liquidity. */
  function MarketPass(f: Floor, isBuy: bool, id: nat, sz: nat, base: nat): (r: Passed)
    requires |f.book| > 1
    ensures |r.f.book| == |f.book|
  {
    var p := Outermost(isBuy, |f.book|);
    var pre := PreOf(f, isBuy, p, id, sz, false, base);
    if pre.fault || pre.left == 0 then pre else Sent(pre.f, !isBuy, p, id, pre.left, base)
  }

  /** A stop rests at p. */
  function StopRested(f: Floor, p: nat, b: Bundle): (r: Floor)
    requires 0 < p < |f.book| && b.Stop?
    ensures |r.book| == |f.book|
  {
    var f1 := f.(book := Pushed(f.book, p, Stops, b));
    if b.isBuy then
      f1.(lowBuyStop := if p < f.lowBuyStop then p else f.lowBuyStop, highBuyStop := if p > f.highBuyStop then p
        else f.highBuyStop)
    else
      f1.(lowSellStop := if p < f.lowSellStop then p else f.lowSellStop, highSellStop := if p > f.highSellStop then p
        else f.highSellStop)
  }

  /** The level of a price. */
  function LevelOf(price: nat, base: nat): int {
    price - base + 1
  }

  /** The price is one of the n - 1 prices from base on. */
  predicate InBook(price: nat, base: nat, n: nat) {
    0 < LevelOf(price, base) < n
  }

  /** What the interface and the queue element constructor check of a new order, for the
      n - 1 prices from base on. */
  predicate Acceptable(t: Ticket, base: nat, n: nat) {
    && t.sz > 0 && (t.cond.Plain? || t.otype.LimitOrder?)
    && (t.otype.LimitOrder? || t.otype.StopLimit? ==> InBook(t.limit, base, n))
    && (t.otype.StopOrder? || t.otype.StopLimit? ==> InBook(t.stop, base, n))
  }

  lemma AcceptableIff(t: Ticket, base: nat, n: nat)
    requires n > 1
    ensures var offLimit := (t.otype.LimitOrder? || t.otype.StopLimit?) && !(base <= t.limit < base + n - 1);
      var offStop := (t.otype.StopOrder? || t.otype.StopLimit?) && !(base <= t.stop < base + n - 1);
      !Acceptable(t, base, n) <==> t.sz == 0 || (!t.cond.Plain? && !t.otype.LimitOrder?) || offLimit || offStop
  {
  }

  /** A fill-or-kill order is killed: the book cannot fill it, or not even part of it. */
  predicate Killed(f: Floor, isBuy: bool, p: nat, sz: nat, partialOk: bool)
    requires 0 < p < |f.book|
  {
    var left := Looked(f, !isBuy, p, sz);
    if partialOk then left == sz else left > 0
  }

  /** A new order enters; left is a market order's shortfall. */
  ghost function Entered(f: Floor, t: Ticket, base: nat): (r: Passed)
    requires |f.book| > 1 && Acceptable(t, base, |f.book|)
    ensures |r.f.book| == |f.book|
  {
    match t.otype
    case Market => MarketPass(f, t.isBuy, t.id, t.sz, base)
    case LimitOrder =>
      var p := LevelOf(t.limit, base);
      if t.cond.FillOrKill? && Killed(f, t.isBuy, p, t.sz, t.cond.partialOk) then Passed(f, 0, false)
      else LimitPass(f, t.isBuy, p, t.id, t.sz, t.cond.AllOrNone?, base).(left := 0)
    case StopOrder => Passed(StopRested(f, LevelOf(t.stop, base), Stop(t.id, t.sz, t.isBuy, 0)), 0, false)
    case StopLimit => Passed(StopRested(f, LevelOf(t.stop, base), Stop(t.id, t.sz, t.isBuy, t.limit)), 0, false)
  }

  /** The inside levels have limit orders. */
  predicate Snug(f: Floor) {
    (f.bid > 0 ==> f.bid < |f.book| && f.book[f.bid].limits != []) && (f.ask < |f.book| ==> f.book[f.ask].limits != [])
  }

  /** With nothing to cross and no check to make, sending an order does nothing. */
  lemma Untradable(f: Floor, bids: bool, p: nat, id: nat, size: nat, base: nat)
    requires 0 < p < |f.book| && !Tradable(f, bids, p) && !f.check && Snug(f)
    ensures Sent(f, bids, p, id, size, base) == Passed(f, size, false)
  {
    hide Match;
    MatchQuiet(f.book, bids, InsideLevel(f, bids), Outermost(bids, |f.book|), p, size);
    assert f.tape + [] == f.tape;
  }

  /* ---- the window ---- */

  /** What an exception drops: all that is still queued. */
  function Cleared(r: Passed): Passed {
    r.(f := r.f.(queue := []))
  }

  /** Queued orders enter, the oldest first, until there are none, one throws or faults, or n
      have entered. */
  ghost function Drained(f: Floor, base: nat, n: nat): (r: Passed)
    requires |f.book| > 1
    ensures |r.f.book| == |f.book|
    decreases n
  {
    if f.queue == [] || n == 0 || !Acceptable(f.queue[0], base, |f.book|) then Passed(f, 0, false)
    else
      var r := Entered(f.(queue := f.queue[1..]), f.queue[0], base);
      if r.fault then r else if r.left > 0 then Cleared(r) else Drained(r.f, base, n - 1)
  }

  /** A whole window: a new order, under the next id, and at most n orders it gives rise to. */
  ghost function Windowed(f: Floor, t: Ticket, base: nat, n: nat): (r: Passed)
    requires |f.book| > 1 && Acceptable(t, base, |f.book|)
    ensures |r.f.book| == |f.book|
  {
    var id := f.lastId + 1;
    var r := Entered(f.(lastId := id), t.(id := id), base);
    if r.fault then r else if r.left > 0 then Cleared(r) else Drained(r.f, base, n)
  }
}
