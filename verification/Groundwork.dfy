/** What the methods of the order book rely on, told without the book object: the order at work
    and what it keeps, and the steps of its loops. */
module Groundwork {
  import opened Ladder
  import opened Matcher
  import opened Desk
  import opened Edges
  import opened Growth
  import opened Sweep
  import opened Overlaps
  import opened Reference
  import opened Plain

  /** How an operation ends: done, with one of the source's exceptions, or at a
      point from which the source's behaviour is not defined. */
  datatype Status = Done | Fault | LeftOver | Liquidity(size: nat, left: nat, id: nat) | Rejected

  /** A request to the book: a new order, one in place of another, or a pull. */
  datatype Request = Enter(t: Ticket) | ReplaceBy(id: nat, t: Ticket) | Withdraw(id: nat)

  /** id is being worked on by the running operation, with size still open. */
  ghost predicate Holding(queue: seq<Ticket>, ledger: map<nat, Account>, hand: set<nat>, id: nat, size: nat,
          isBuy: bool) {
    && id in hand && id in ledger
    && Open(ledger[id]) == size && ledger[id].released == 0 && ledger[id].isBuy == isBuy
    && forall t :: t in queue ==> t.id != id
  }

  /** The ids of the queued orders. */
  ghost function QueueIds(queue: seq<Ticket>): set<nat> {
    set t | t in queue :: t.id
  }

  /** The orders in hand are the queued ones and those in work. */
  ghost predicate InWork(queue: seq<Ticket>, hand: set<nat>, work: set<nat>) {
    hand == QueueIds(queue) + work && QueueIds(queue) !! work
  }

  /** The order at work, and what was and is to be kept while it works. */
  datatype Job = Job(id: nat, isBuy: bool, ledger: map<nat, Account>, keep: set<nat>, stops: set<nat>, check: bool,
    sales: nat, work: set<nat>)

  /** The job once its order is done or rests. */
  ghost function Off(w: Job): Job {
    w.(work := w.work - {w.id})
  }

  /** Accounts keep their terms, fills are not undone, and those in keep are untouched. */
  ghost predicate Carried(l: map<nat, Account>, l': map<nat, Account>, keep: set<nat>) {
    forall id :: id in l ==>
      && id in l' && l'[id].isBuy == l[id].isBuy && l'[id].aon == l[id].aon && l'[id].size == l[id].size
      && l[id].filled <= l'[id].filled && l[id].released <= l'[id].released
      && (id in keep ==> l'[id] == l[id])
  }

  lemma CarryCredit(l: map<nat, Account>, l': map<nat, Account>, keep: set<nat>, x: nat, y: nat, size: nat)
    requires Carried(l, l', keep) && x in l' && y in l' && x !in keep && y !in keep
    ensures Carried(l, Credit(Credit(l', x, size), y, size), keep)
  {
  }

  /** What a strike keeps of an operation under way. */
  lemma StrikeKeeps(d: Books, l: map<nat, Account>, keep: set<nat>, p: nat, k: Kind, i: nat, taker: nat, open: nat,
          size: nat, price: int)
    requires Ok(d) && 0 < p < |d.book| && k != Stops && i < |Chain(d.book[p], k)|
      && Chain(d.book[p], k)[i].id in d.ledger
    requires Holding(d.queue, d.ledger, d.hand, taker, open, !d.ledger[Chain(d.book[p], k)[i].id].isBuy)
    requires size <= Chain(d.book[p], k)[i].sz && size <= open
    requires IsAon(Chain(d.book[p], k)[i]) ==> size == Chain(d.book[p], k)[i].sz
    requires Carried(l, d.ledger, keep) && keep <= d.hand && taker !in keep
    ensures var d' := Strike(d, p, k, i, taker, size, price);
      && Ok(d') && StopIds(d'.cache) == StopIds(d.cache)
      && Holding(d'.queue, d'.ledger, d'.hand, taker, open - size, !d.ledger[Chain(d.book[p], k)[i].id].isBuy)
        && Carried(l, d'.ledger, keep)
  {
    hide Ok, Carried, StopIds;
    var b := Chain(d.book[p], k)[i];
    StrikeOk(d, p, k, i, taker, size, price);
    InChain(d, p, k, i);
    CarryCredit(l, d.ledger, keep, taker, b.id, size);
  }

  /** The order of the job has size left, and what it is to keep is kept. */
  ghost predicate AtWork(queue: seq<Ticket>, ledger: map<nat, Account>, hand: set<nat>, cache: map<nat, Place>,
          tape: seq<Sale>, check: bool, w: Job, size: nat) {
    && Holding(queue, ledger, hand, w.id, size, w.isBuy) && Carried(w.ledger, ledger, w.keep)
    && StopIds(cache) == w.stops
    && w.keep <= hand && w.id !in w.keep && InWork(queue, hand, w.work)
    && w.sales <= |tape| && (check <==> w.check || w.sales < |tape|)
  }

  /** A trade of the order at work leaves the books in order and it at work. */
  lemma StrikeAtWork(d: Books, check: bool, w: Job, p: nat, k: Kind, i: nat, open: nat, size: nat, price: int)
    requires Ok(d) && AtWork(d.queue, d.ledger, d.hand, d.cache, d.tape, check, w, open)
    requires 0 < p < |d.book| && k != Stops && i < |Chain(d.book[p], k)|
    requires Chain(d.book[p], k)[i].id in d.ledger && d.ledger[Chain(d.book[p], k)[i].id].isBuy != w.isBuy
    requires size <= Chain(d.book[p], k)[i].sz && size <= open
    requires IsAon(Chain(d.book[p], k)[i]) ==> size == Chain(d.book[p], k)[i].sz
    ensures w.id in d.ledger
    ensures var d' := Strike(d, p, k, i, w.id, size, price);
      Ok(d') && AtWork(d'.queue, d'.ledger, d'.hand, d'.cache, d'.tape, true, w, open - size)
  {
    hide Ok, Carried, StopIds, Holding, InWork, Chain;
    HoldingFacts(d.queue, d.ledger, d.hand, w.id, open, w.isBuy);
    StrikeKeeps(d, w.ledger, w.keep, p, k, i, w.id, open, size, price);
  }

  /** The job of a new order. */
  ghost function JobFor(d: Books, id: nat, isBuy: bool): Job {
    Job(id, isBuy, d.ledger, {}, StopIds(d.cache), false, |d.tape|, {id})
  }

  /** A new order is at work. */
  lemma AcceptAtWork(d: Books, a: Account, check: bool)
    requires Ok(d) && d.queue == [] && d.hand == {} && a.filled == 0 && a.released == 0
    ensures var d', id := Accept(d, a), d.lastId + 1;
      && Ok(d') && id !in d.ledger
      && AtWork(d'.queue, d'.ledger, d'.hand, d'.cache, d'.tape, check,
                JobFor(d', id, a.isBuy).(check := check), a.size)
  {
    AcceptOk(d, a);
    hide Ok, StopIds;
    CarryAll(Accept(d, a).ledger);
  }

  /** The front of the queue is dropped. */
  lemma DropOk(d: Books)
    requires Ok(d) && d.queue != [] && InWork(d.queue, d.hand, {})
    ensures var id, d1 := d.queue[0].id, d.(queue := d.queue[1..]);
      && id in d.ledger && Open(d.ledger[id]) >= 0
      && Ok(Release(d1, id)) && InWork(d1.queue, d.hand - {id}, {}) && Carried(d.ledger, Release(d1, id).ledger, {})
  {
    hide Ok, InWork, Carried;
    DequeueOk(d);
    DequeueWork(d.queue, d.hand);
    ReleaseOk(d.(queue := d.queue[1..]), d.queue[0].id);
    CarryRelease(d.ledger, d.queue[0].id);
  }

  lemma HoldingFacts(queue: seq<Ticket>, ledger: map<nat, Account>, hand: set<nat>, id: nat, size: nat, isBuy: bool)
    requires Holding(queue, ledger, hand, id, size, isBuy)
    ensures id in hand && id in ledger
  {
  }

  lemma InChain(d: Books, p: nat, k: Kind, i: nat)
    requires Ok(d) && p < |d.book| && i < |Chain(d.book[p], k)|
    ensures Chain(d.book[p], k)[i].id in d.cache && Chain(d.book[p], k)[i].id !in d.hand
  {
    hide Unique, Found, Sided, Queued, Audited, Posted;
    Known(d.book, d.cache, d.ledger, p, k, i);
  }

  lemma VolumePush(tape: seq<Sale>, s: Sale)
    ensures Volume(tape + [s]) == Volume(tape) + s.size
  {
    assert (tape + [s])[..|tape|] == tape;
  }

  /** A limit price of the book of n levels that starts at base, or none. */
  predicate PricedIn(limit: nat, base: nat, n: nat) {
    limit == 0 || base <= limit < base + n - 1
  }

  ghost predicate StopsPriced(book: seq<Level>, base: nat) {
    forall p, b :: 0 <= p < |book| && b in book[p].stops && b.Stop? ==> PricedIn(b.limit, base, |book|)
  }

  /** Queued orders are plain market or limit orders at prices of the book. */
  ghost predicate QueuePriced(queue: seq<Ticket>, base: nat, n: nat) {
    forall t :: t in queue ==> t.cond == Plain && PricedIn(t.limit, base, n) && t.otype == if t.limit == 0 then Market
      else LimitOrder
  }

  /** The first steps of hitting a chain, then the rest. */
  predicate HitSoFar(h: Hit, rest: seq<Bundle>, moved: seq<Bundle>, fills: seq<Fill>, t: Hit) {
    h.rest == rest + t.rest && h.moved == moved + t.moved && h.fills == fills + t.fills && h.left == t.left
  }

  lemma HitAonsStart(c: seq<Bundle>, p: nat, size: nat)
    ensures HitSoFar(HitAons(c, p, size), c[..0], [], [], HitAons(c[0..], p, size))
  {
  }

  lemma HitAonsSkip(h: Hit, c: seq<Bundle>, i: nat, fills: seq<Fill>, p: nat, size: nat)
    requires i < |c| && 0 < size < c[i].sz && HitSoFar(h, c[..i], [], fills, HitAons(c[i..], p, size))
    ensures HitSoFar(h, c[..i + 1], [], fills, HitAons(c[i + 1..], p, size))
  {
    assert c[i..][1..] == c[i + 1..];
    assert c[..i + 1] == c[..i] + [c[i]];
  }

  lemma HitAonsFill(h: Hit, c: seq<Bundle>, i: nat, fills: seq<Fill>, p: nat, size: nat)
    requires i < |c| && 0 < c[i].sz <= size && HitSoFar(h, c[..i], [], fills, HitAons(c[i..], p, size))
    ensures HitSoFar(h, Struck(c, i, c[i].sz)[..i], [], fills + [Fill(p, c[i].id, c[i].sz)],
      HitAons(Struck(c, i, c[i].sz)[i..], p, size - c[i].sz))
  {
    var t := HitAons(c[i + 1..], p, size - c[i].sz);
    assert c[i..][1..] == c[i + 1..];
    assert HitAons(c[i..], p, size) == t.(fills := [Fill(p, c[i].id, c[i].sz)] + t.fills);
    hide HitAons;
    assert Without(c, i)[i..] == c[i + 1..];
    assert Without(c, i)[..i] == c[..i];
    assert fills + ([Fill(p, c[i].id, c[i].sz)] + t.fills) == fills + [Fill(p, c[i].id, c[i].sz)] + t.fills;
  }

  lemma HitAonsEnd(h: Hit, c: seq<Bundle>, i: nat, fills: seq<Fill>, p: nat, size: nat)
    requires i <= |c| && (i == |c| || size == 0) && HitSoFar(h, c[..i], [], fills, HitAons(c[i..], p, size))
    ensures h.rest == c && h.fills == fills && h.left == size
  {
    assert c[..i] + c[i..] == c;
  }

  lemma HitLimitsStart(c: seq<Bundle>, p: nat, size: nat)
    ensures HitSoFar(HitLimits(c, p, size), [], [], [], HitLimits(c, p, size))
  {
  }

  /** The head of a limit chain trades, or steps aside. */
  function HitHead(c: seq<Bundle>, p: nat, size: nat): Hit
    requires c != []
  {
    if IsAon(c[0]) && size < c[0].sz then Hit(c[1..], [c[0]], [], size)
    else
      var amount := if size < c[0].sz then size else c[0].sz;
      Hit(Struck(c, 0, amount), [], [Fill(p, c[0].id, amount)], size - amount)
  }

  lemma HitLimitsHead(c: seq<Bundle>, p: nat, size: nat)
    requires c != [] && 0 < size && 0 < c[0].sz
    ensures var s := HitHead(c, p, size);
            var t := HitLimits(s.rest, p, s.left);
            HitLimits(c, p, size) == Hit(t.rest, s.moved + t.moved, s.fills + t.fills, t.left)
  {
    var s := HitHead(c, p, size);
    if size < c[0].sz {
      if !IsAon(c[0]) {
        assert s.rest == [Resized(c[0], c[0].sz - size)] + c[1..];
      }
    } else {
      assert s.rest == c[1..];
    }
  }

  lemma HitLimitsStep(h: Hit, c: seq<Bundle>, moved: seq<Bundle>, fills: seq<Fill>, p: nat, size: nat)
    requires c != [] && 0 < size && 0 < c[0].sz && HitSoFar(h, [], moved, fills, HitLimits(c, p, size))
    ensures var s := HitHead(c, p, size);
      HitSoFar(h, [], moved + s.moved, fills + s.fills, HitLimits(s.rest, p, s.left))
    ensures HitHead(c, p, size).moved != [] ==> h.moved != []
  {
    hide HitLimits, HitHead;
    var s := HitHead(c, p, size);
    var t := HitLimits(s.rest, p, s.left);
    HitLimitsHead(c, p, size);
    assert moved + (s.moved + t.moved) == moved + s.moved + t.moved;
    assert fills + (s.fills + t.fills) == fills + s.fills + t.fills;
  }

  lemma HitLimitsEnd(h: Hit, c: seq<Bundle>, moved: seq<Bundle>, fills: seq<Fill>, p: nat, size: nat)
    requires (c == [] || size == 0) && HitSoFar(h, [], moved, fills, HitLimits(c, p, size))
    ensures h.rest == c && h.moved == moved && h.fills == fills && h.left == size
  {
  }

  /** Level p with limit chain rest, and moved behind its AON buys. */
  function LimitsHit(book: seq<Level>, p: nat, rest: seq<Bundle>, moved: seq<Bundle>): (r: seq<Level>)
    requires p < |book|
    ensures |r| == |book| && r[p].limits == rest
  {
    book[p := book[p].(limits := rest, aonBuys := book[p].aonBuys + moved)]
  }

  lemma LimitsUnhit(book: seq<Level>, p: nat)
    requires p < |book|
    ensures LimitsHit(book, p, book[p].limits, []) == book
  {
    assert book[p].aonBuys + [] == book[p].aonBuys;
  }

  lemma LimitsHitTwice(book: seq<Level>, p: nat, rest: seq<Bundle>, moved: seq<Bundle>, rest': seq<Bundle>,
          moved': seq<Bundle>)
    requires p < |book|
    ensures LimitsHit(LimitsHit(book, p, rest, moved), p, rest', moved') == LimitsHit(book, p, rest', moved + moved')
  {
    assert book[p].aonBuys + moved + moved' == book[p].aonBuys + (moved + moved');
  }

  lemma HeadSmaller(c: seq<Bundle>, p: nat, size: nat)
    requires c != [] && size > 0
    ensures var s := HitHead(c, p, size); |s.rest| < |c| || (|s.rest| == |c| && s.left < size)
  {
  }

  lemma LimitsHitAgain(book: seq<Level>, p: nat, rest: seq<Bundle>, moved: seq<Bundle>, rest': seq<Bundle>)
    requires p < |book|
    ensures SetChain(LimitsHit(book, p, rest, moved), p, Limits, rest') == LimitsHit(book, p, rest', moved)
  {
  }

  /** All there is to the state of the book but the base price, which no order changes. */
  datatype Snapshot = Snapshot(d: Books, e: Edge, last: nat, totalVolume: nat, lastSize: nat, needCheck: bool)

  /** The book after id is pulled: all-or-none orders then in front of a limit chain step aside. */
  function Pulled(book: seq<Level>, cache: map<nat, Place>, id: nat): (r: seq<Level>)
    requires Located(book, cache, id)
    ensures |r| == |book|
  {
    var p := cache[id].level;
    var cut := Cut(book, cache, id);
    var n := FrontAons(cut[p].limits);
    if cache[id].kind == Limits then LimitsHit(cut, p, cut[p].limits[n..], cut[p].limits[..n]) else cut
  }

  /** One of those that step aside is a sell, which the source files under the buys. */
  predicate PullFaults(book: seq<Level>, cache: map<nat, Place>, ask: nat, id: nat)
    requires Located(book, cache, id)
  {
    var p := cache[id].level;
    cache[id].kind == Limits && p >= ask && FrontAons(Cut(book, cache, id)[p].limits) > 0
  }

  /** The reference match so far, and what it still does from here. */
  predicate MatchSoFar(m: Outcome, fills: seq<Fill>, t: Outcome) {
    m.book == t.book && m.fills == fills + t.fills && m.left == t.left && m.fault == t.fault
  }

  /** The walk from the cached edges is at p, and has done what the reference match m did up to there. */
  ghost predicate Walked(old_: seq<Level>, book: seq<Level>, bids: bool, inside: nat, p: nat, limit: nat, end: nat,
          size: nat,
                         m: Outcome, fills: seq<Fill>)
  {
    && |book| == |old_| && OnBook(|book|, bids, p, limit)
    && (forall r :: 0 < r < |book| && Beyond(bids, p, r) ==> book[r] == old_[r])
    && (forall r :: 0 < r < |book| && !InsideOf(bids, r, end) ==> Quiet(old_[r], bids, OnSide(bids, r, inside)))
    && MatchSoFar(m, fills, Match(book, bids, inside, p, limit, size))
  }

  lemma WalkStart(book: seq<Level>, bids: bool, inside: nat, limit: nat, begin: nat, end: nat, size: nat)
    requires 0 < limit < |book| && (if bids then begin < |book| else 0 < begin <= |book|)
    requires forall r :: 0 < r < |book| && Beyond(bids, r, begin) && r != begin ==>
      Quiet(book[r], bids, OnSide(bids, r, inside))
    requires forall r :: 0 < r < |book| && !InsideOf(bids, r, end) ==> Quiet(book[r], bids, OnSide(bids, r, inside))
    ensures Walked(book, book, bids, inside, begin, limit, end, size,
      Match(book, bids, inside, Outermost(bids, |book|), limit, size), [])
  {
    hide Match, Quiet;
    MatchJump(book, bids, inside, Outermost(bids, |book|), begin, limit, size);
  }

  lemma WalkAt(old_: seq<Level>, book: seq<Level>, bids: bool, inside: nat, p: nat, limit: nat, end: nat, size: nat,
               m: Outcome, fills: seq<Fill>)
    requires Walked(old_, book, bids, inside, p, limit, end, size, m, fills) && InsideOf(bids, p, limit) && size > 0
    ensures 0 < p < |book| && |book| == |old_|
    ensures HitLevel(book[p], bids, OnSide(bids, p, inside), p, size).fault ==> m.fault
  {
    hide Quiet, HitLevel;
  }

  /** One level is hit, then the walk jumps to q. */
  lemma WalkStep(old_: seq<Level>, book: seq<Level>, bids: bool, inside: nat, p: nat, limit: nat, end: nat, size: nat,
                 m: Outcome, fills: seq<Fill>, q: nat)
    requires Walked(old_, book, bids, inside, p, limit, end, size, m, fills) && InsideOf(bids, p, limit) && size > 0
    requires 0 < p < |book| && (if bids then q < |book| else 0 < q <= |book|) && Beyond(bids, Next(bids, p), q)
    requires var h := HitLevel(book[p], bids, OnSide(bids, p, inside), p, size);
      && !h.fault
      && forall r ::
           0 < r < |book| && r != p && Beyond(bids, Next(bids, p), r) && Beyond(bids, r, q) && r != q ==>
             Quiet(book[p := h.level][r], bids, OnSide(bids, r, inside))
    ensures var h := HitLevel(book[p], bids, OnSide(bids, p, inside), p, size);
      Walked(old_, book[p := h.level], bids, inside, q, limit, end, h.left, m, fills + h.fills)
  {
    hide Quiet, HitLevel;
    var h := HitLevel(book[p], bids, OnSide(bids, p, inside), p, size);
    var t := Match(book[p := h.level], bids, inside, Next(bids, p), limit, h.left);
    assert MatchSoFar(m, fills + h.fills, t) by {
      assert fills + (h.fills + t.fills) == fills + h.fills + t.fills;
    }
    hide Match;
    MatchJump(book[p := h.level], bids, inside, Next(bids, p), q, limit, h.left);
  }

  lemma WalkEnd(old_: seq<Level>, book: seq<Level>, bids: bool, inside: nat, p: nat, limit: nat, end: nat, size: nat,
                m: Outcome, fills: seq<Fill>)
    requires Walked(old_, book, bids, inside, p, limit, end, size, m, fills)
    requires size == 0 || !InsideOf(bids, p, limit) || !InsideOf(bids, p, end)
    ensures book == m.book && fills == m.fills && size == m.left && !m.fault
  {
    hide Quiet;
    if size > 0 {
      MatchQuiet(book, bids, inside, p, limit, size);
    }
    assert fills + [] == fills;
  }

  lemma NoTickets(id: nat)
    ensures Tickets([], id) == []
  {
  }

  lemma TicketsPush(bs: seq<Bundle>, b: Bundle, id: nat)
    requires b.Stop?
    ensures Tickets(bs + [b], id) == Tickets(bs, id) + [Triggered(b, id + |bs| + 1)]
  {
    TicketsConcat(bs, [b], id);
    assert [b][1..] == [];
  }

  lemma CoveredStops(book: seq<Level>, e: Edge)
    requires Covered(book, e)
    ensures StopEdges(book, e)
  {
  }

  lemma StopsMoved(book: seq<Level>, e: Edge, e': Edge)
    requires Covered(book, e) && StopEdges(book, e')
    requires e' == e.(lowBuyStop := e'.lowBuyStop, highBuyStop := e'.highBuyStop, lowSellStop := e'.lowSellStop,
      highSellStop := e'.highSellStop)
    ensures Covered(book, e')
  {
    hide AonsWithin, StopsWithin;
  }

  lemma CoveredFreed(book: seq<Level>, e: Edge, p: nat)
    requires p < |book|
    ensures Covered(book, e) ==> Covered(book[p := book[p].(stops := [])], e)
  {
  }

  lemma StopsLeft(book: seq<Level>, p: nat)
    requires p < |book|
    ensures forall q, buys :: 0 <= q < |book| && HasStop(book[p := book[p].(stops := [])][q], buys) ==>
      HasStop(book[q], buys)
  {
  }

  /** What triggering keeps of an operation under way. */
  lemma TriggerKeeps(d: Books, p: nat, size: nat, w: Job)
    requires Ok(d) && p < |d.book| && d.book[p].stops != []
    requires Holding(d.queue, d.ledger, d.hand, w.id, size, w.isBuy) && Carried(w.ledger, d.ledger, w.keep)
      && w.keep <= d.hand && InWork(d.queue, d.hand, w.work)
    ensures var b := d.book[p].stops[0];
      && b.Stop? && b.id in d.ledger && Open(d.ledger[b.id]) >= 0
      && var d' := Trigger(d, p);
      && Ok(d') && Holding(d'.queue, d'.ledger, d'.hand, w.id, size, w.isBuy) && Carried(w.ledger, d'.ledger, w.keep)
        && w.keep <= d'.hand && InWork(d'.queue, d'.hand, w.work)
      && |StopIds(d'.cache)| + |d'.queue| == |StopIds(d.cache)| + |d.queue|
  {
    hide Ok, StopIds, Carried, Holding, InWork;
    var b := d.book[p].stops[0];
    FrontStop(d, p);
    TriggerOk(d, p);
    var s := StopIds(d.cache);
    assert |s - {b.id}| == |s| - 1;
    Unused(d);
    TriggerHeld(d, p, size, w);
  }

  lemma TriggerHeld(d: Books, p: nat, size: nat, w: Job)
    requires p < |d.book| && d.book[p].stops != [] && d.lastId + 1 !in d.ledger && d.lastId + 1 !in d.hand
    requires d.book[p].stops[0].Stop? && d.book[p].stops[0].id in d.ledger && d.book[p].stops[0].id !in d.hand
      && Open(d.ledger[d.book[p].stops[0].id]) >= 0
    requires Holding(d.queue, d.ledger, d.hand, w.id, size, w.isBuy) && Carried(w.ledger, d.ledger, w.keep)
      && w.keep <= d.hand && InWork(d.queue, d.hand, w.work)
    ensures var d' := Trigger(d, p);
      && Holding(d'.queue, d'.ledger, d'.hand, w.id, size, w.isBuy) && Carried(w.ledger, d'.ledger, w.keep)
      && w.keep <= d'.hand && InWork(d'.queue, d'.hand, w.work)
  {
    QueueIdsPush(d.queue, Triggered(d.book[p].stops[0], d.lastId + 1));
  }

  lemma FrontStop(d: Books, p: nat)
    requires Ok(d) && p < |d.book| && d.book[p].stops != []
    ensures var b := d.book[p].stops[0];
      b.Stop? && b.id in d.ledger && Open(d.ledger[b.id]) >= 0 && b.id !in d.hand
  {
    hide Unique, Found, Sided, Queued, Audited, Posted;
    assert Chain(d.book[p], Stops)[0] == d.book[p].stops[0];
    Known(d.book, d.cache, d.ledger, p, Stops, 0);
  }

  lemma LevelSales(l: Level, bids: bool, onSide: bool, p: nat, size: nat, id: nat, base: nat)
    ensures var a := HitAons(Chain(l, AonKind(bids)), p, size);
            var h := HitLimits(l.limits, p, a.left);
            SalesOf(HitLevel(l, bids, onSide, p, size).fills, id, base)
              == SalesOf(a.fills, id, base) + if onSide then SalesOf(h.fills, id, base) else []
  {
    hide HitAons, HitLimits;
    var a := HitAons(Chain(l, AonKind(bids)), p, size);
    var h := HitLimits(l.limits, p, a.left);
    SalesConcat(a.fills, h.fills, id, base);
    if l.limits == [] {
      NoLimits(p, a.left);
      NoSales(id, base);
    }
  }

  lemma LevelParts(book: seq<Level>, p: nat, bids: bool, onSide: bool, size: nat)
    requires p < |book|
    ensures var a := HitAons(Chain(book[p], AonKind(bids)), p, size);
            var book1 := SetChain(book, p, AonKind(bids), a.rest);
            var h := HitLimits(book[p].limits, p, a.left);
            && book1[p].limits == book[p].limits
            && HitLevel(book[p], bids, onSide, p, size).left == (if onSide then h.left else a.left)
            && book[p := HitLevel(book[p], bids, onSide, p, size).level] ==
                 (if onSide then LimitsHit(book1, p, h.rest, h.moved) else book1)
  {
    hide HitAons, HitLimits;
    var a := HitAons(Chain(book[p], AonKind(bids)), p, size);
    if book[p].limits == [] {
      NoLimits(p, a.left);
      var book1 := SetChain(book, p, AonKind(bids), a.rest);
      LimitsUnhit(book1, p);
    }
  }

  lemma NoLimits(p: nat, size: nat)
    ensures HitLimits([], p, size) == Hit([], [], [], size)
  {
  }

  lemma NoAons(p: nat, size: nat)
    ensures HitAons([], p, size) == Hit([], [], [], size)
  {
  }

  /** The head of a limit chain on the side being hit is of that side. */
  lemma LimitMaker(d: Books, bids: bool, p: nat)
    requires Ok(d) && Gap(d.book, d.bid, d.ask) && p < |d.book| && d.book[p].limits != []
    requires if bids then p <= d.bid || p < d.ask else p >= d.ask
    ensures var b := d.book[p].limits[0]; b.id in d.ledger && d.ledger[b.id].isBuy == bids && b.sz > 0
    ensures bids <==> p < d.ask
  {
    hide Unique, Found, Queued, Audited, Posted;
    assert Chain(d.book[p], Limits)[0] == d.book[p].limits[0];
    Known(d.book, d.cache, d.ledger, p, Limits, 0);
    assert d.book[p].limits[0] in d.book[p].limits;
  }

  lemma CoveredGap(book: seq<Level>, e: Edge)
    requires Covered(book, e)
    ensures Gap(book, e.bid, e.ask)
  {
  }

  lemma CoveredDemote(book: seq<Level>, e: Edge, p: nat)
    requires 0 < p < |book| && book[p].limits != [] && Covered(book, e)
    ensures Covered(LimitsHit(book, p, book[p].limits[1..], [book[p].limits[0]]), InsertedAon(e, true, p))
  {
  }

  lemma CoveredAons(book: seq<Level>, e: Edge)
    requires Covered(book, e)
    ensures AonEdges(book, e)
  {
  }

  lemma AonsMoved(book: seq<Level>, e: Edge, e': Edge)
    requires Covered(book, e) && AonEdges(book, e')
    requires e' == e.(lowBuyAon := e'.lowBuyAon, highBuyAon := e'.highBuyAon, lowSellAon := e'.lowSellAon,
      highSellAon := e'.highSellAon)
    ensures Covered(book, e')
  {
    hide AonsWithin, StopsWithin;
  }

  lemma InsideMoved(book: seq<Level>, e: Edge, bid: nat, ask: nat)
    requires Covered(book, e) && bid <= e.bid && e.ask <= ask <= |book|
    requires forall p :: 0 <= p < |book| && book[p].limits != [] ==>
      (p <= e.bid ==> p <= bid) && (p >= e.ask ==> p >= ask)
    ensures Covered(book, e.(bid := bid, lowBuyLimit := if bid < 1 then |book| else if bid < e.lowBuyLimit then bid
      else e.lowBuyLimit))
    ensures Covered(book, e.(ask := ask, highSellLimit := if ask >= |book| then 0 else if ask > e.highSellLimit then ask
      else e.highSellLimit))
  {
    hide AonsWithin, StopsWithin;
  }

  /** Striking a chain keeps the edges covering. */
  lemma CoveredCut(book: seq<Level>, e: Edge, p: nat, k: Kind, c: seq<Bundle>)
    requires p < |book| && k != Stops && Chain(book[p], k) != [] && Covered(book, e)
    ensures Covered(SetChain(book, p, k, c), e)
  {
  }

  lemma UpFloor(old_: seq<Level>, lo: nat, last: nat, p: nat, book: seq<Level>, done: seq<Bundle>)
    requires UpSoFar(old_, lo, last, p, book, done)
    ensures 0 < p && |book| == |old_| && last < |book| && forall q :: 0 <= q < |book| && HasStop(book[q], true) ==>
      p <= q
  {
    hide HasStop;
  }

  lemma DownCeiling(old_: seq<Level>, hi: nat, last: nat, p: nat, book: seq<Level>, done: seq<Bundle>)
    requires DownSoFar(old_, hi, last, p, book, done)
    ensures 0 < last && p < |book| == |old_| && forall q :: 0 <= q < |book| && HasStop(book[q], false) ==> q <= p
  {
    hide HasStop;
  }

  lemma MatchPriced(book: seq<Level>, bids: bool, inside: nat, limit: nat, size: nat, base: nat)
    requires 0 < limit < |book| && StopsPriced(book, base)
    ensures StopsPriced(Match(book, bids, inside, Outermost(bids, |book|), limit, size).book, base)
  {
    hide Match;
    MatchFrame(book, bids, inside, Outermost(bids, |book|), limit, size);
  }

  ghost predicate AllPriced(bs: seq<Bundle>, base: nat, n: nat) {
    forall b :: b in bs ==> b.Stop? ==> PricedIn(b.limit, base, n)
  }

  lemma {:induction false} UpPriced(book: seq<Level>, lo: nat, hi: nat, base: nat)
    requires StopsPriced(book, base)
    ensures AllPriced(SweptUp(book, lo, hi), base, |book|)
    decreases hi + 1 - lo
  {
    if lo <= hi && lo < |book| {
      UpPriced(book, lo + 1, hi, base);
    }
  }

  lemma {:induction false} DownPriced(book: seq<Level>, hi: nat, lo: nat, base: nat)
    requires StopsPriced(book, base)
    ensures AllPriced(SweptDown(book, hi, lo), base, |book|)
    decreases hi
  {
    if hi >= lo && 0 < hi < |book| {
      DownPriced(book, hi - 1, lo, base);
    }
  }

  lemma {:induction false} TicketsPriced(bs: seq<Bundle>, id: nat, base: nat, n: nat)
    requires AllPriced(bs, base, n)
    ensures QueuePriced(Tickets(bs, id), base, n)
  {
    if bs != [] {
      assert bs[0] in bs && forall b :: b in bs[1..] ==> b in bs;
      TicketsPriced(bs[1..], id + 1, base, n);
      var t := Tickets(bs, id);
      assert t == [t[0]] + Tickets(bs[1..], id + 1);
    }
  }

  lemma SweepPriced(book: seq<Level>, lo: nat, hi: nat, last: nat, base: nat, queue0: seq<Ticket>, id0: nat,
          queue: seq<Ticket>, id: nat)
    requires StopsPriced(book, base) && QueuePriced(queue0, base, |book|)
    requires QueuedSoFar(queue0, id0, SweptUp(book, lo, last) + SweptDown(Swept(book, lo, last), hi, last), queue, id)
    ensures StopsPriced(Swept(Swept(book, lo, last), last, hi), base) && QueuePriced(queue, base, |book|)
  {
    hide SweptUp, SweptDown, Tickets;
    var book1 := Swept(book, lo, last);
    var all := SweptUp(book, lo, last) + SweptDown(book1, hi, last);
    UpPriced(book, lo, last, base);
    DownPriced(book1, hi, last, base);
    TicketsPriced(all, id0, base, |book|);
  }

  /** The elements of one chain are counted until enough, or anything, is found. */
  method CheckChain(c: seq<Bundle>, p: nat, sz: nat, tot0: nat, allowPartial: bool) returns (ok: bool, tot: nat)
    requires tot0 < sz && (allowPartial ==> tot0 == 0) && forall b :: b in c ==> b.sz > 0
    ensures var left := HitLimits(c, p, sz - tot0).left;
      && (!allowPartial ==> (ok <==> left == 0))
      && (allowPartial ==> (ok <==> left < sz))
      && (!ok ==> tot == sz - left)
  {
    tot := tot0;
    var i := 0;
    assert c[0..] == c;
    while i < |c|
      invariant i <= |c| && tot < sz && (allowPartial ==> tot == 0)
      invariant HitLimits(c, p, sz - tot0).left == HitLimits(c[i..], p, sz - tot).left
    {
      assert c[i] in c && c[i..][0] == c[i] && c[i..][1..] == c[i + 1..];
      if !IsAon(c[i]) || sz - tot >= c[i].sz {
        tot := tot + c[i].sz;
        if allowPartial || tot >= sz {
          return true, tot;
        }
      }
      i := i + 1;
    }
    ok := false;
  }

  lemma {:induction false} HitAonsAsLimits(c: seq<Bundle>, p: nat, size: nat)
    requires forall b :: b in c ==> IsAon(b)
    ensures HitAons(c, p, size).left == HitLimits(c, p, size).left
  {
    if c != [] && size != 0 {
      assert c[0] in c && forall b :: b in c[1..] ==> b in c;
      HitAonsAsLimits(c[1..], p, if size < c[0].sz then size else size - c[0].sz);
    }
  }

  lemma ChainFacts(d: Books, e: Edge, bids: bool, b: nat)
    requires Ok(d) && b < |d.book|
    ensures forall x :: x in Chain(d.book[b], AonKind(bids)) || x in Chain(d.book[b], Limits) ==> x.sz > 0
    ensures forall x :: x in Chain(d.book[b], AonKind(bids)) ==> IsAon(x)
  {
    hide Named, Unique, Found, Sided, Queued, Audited, Handled, Posted;
  }

  lemma LeftPast(book: seq<Level>, bids: bool, inside: nat, b: nat, p: nat, size: nat)
    requires OnBook(|book|, bids, b, p) && !InsideOf(bids, b, p)
    ensures Left(book, bids, inside, b, p, size) == size
  {
  }

  lemma QueueIdsPush(queue: seq<Ticket>, t: Ticket)
    ensures QueueIds(queue + [t]) == QueueIds(queue) + {t.id}
  {
    assert forall u :: u in queue + [t] <==> u in queue || u == t;
    assert t in queue + [t];
  }

  lemma StopsUncut(book: seq<Level>, p: nat, k: Kind, c: seq<Bundle>, base: nat)
    requires p < |book| && StopsPriced(book, base) && (k == Stops ==> forall b :: b in c ==> b in book[p].stops)
    ensures StopsPriced(SetChain(book, p, k, c), base)
  {
  }

  lemma ChainCut(book: seq<Level>, p: nat, k: Kind, c: seq<Bundle>)
    requires p < |book|
    ensures Chain(SetChain(book, p, k, c)[p], k) == c
  {
  }

  lemma LimitsUncut(book: seq<Level>, p: nat, k: Kind, c: seq<Bundle>)
    requires p < |book| && k != Limits
    ensures forall q :: 0 <= q < |book| ==> SetChain(book, p, k, c)[q].limits == book[q].limits
  {
  }

  lemma StopsStay(cache: map<nat, Place>, id: nat)
    requires id in cache && cache[id].kind != Stops
    ensures StopIds(cache - {id}) == StopIds(cache)
  {
  }

  lemma FarMoved(book: seq<Level>, e: Edge, low: nat, high: nat)
    requires Covered(book, e)
    requires low == e.lowBuyLimit || (low == e.lowBuyLimit + 1 && 0 < e.lowBuyLimit <= e.bid
      && book[e.lowBuyLimit].limits == [])
    requires high == e.highSellLimit || (high + 1 == e.highSellLimit && e.ask <= e.highSellLimit
      && book[e.highSellLimit].limits == [])
    ensures Covered(book, e.(lowBuyLimit := low, highSellLimit := high))
  {
    hide AonsWithin, StopsWithin;
  }

  lemma LimitsElsewhere(book: seq<Level>, p: nat, c: seq<Bundle>)
    requires p < |book|
    ensures forall q :: 0 <= q < |book| && q != p ==> SetChain(book, p, Limits, c)[q] == book[q]
  {
  }

  lemma AsidePriced(book: seq<Level>, p: nat, base: nat)
    requires p < |book| && book[p].limits != []
    ensures StopsPriced(book, base) ==> StopsPriced(LimitsHit(book, p, book[p].limits[1..], [book[p].limits[0]]), base)
  {
  }

  /** A stop leaves its chain. */
  lemma StopsWithout(d: Books, e: Edge, p: nat, i: nat, base: nat)
    requires Ok(d) && p < |d.book| && i < |d.book[p].stops| && Covered(d.book, e) && StopsPriced(d.book, base)
    ensures var c := Without(d.book[p].stops, i); var b := d.book[p].stops[i];
      && b.Stop? && (if b.isBuy then e.lowBuyStop <= p <= e.highBuyStop else e.lowSellStop <= p <= e.highSellStop)
      && Covered(SetChain(d.book, p, Stops, c), e) && StopsPriced(SetChain(d.book, p, Stops, c), base)
  {
    var b := d.book[p].stops[i];
    var c := Without(d.book[p].stops, i);
    IsStop(d, p, i);
    hide Ok;
    assert forall j :: 0 <= j < |c| ==> c[j] == d.book[p].stops[if j < i then j else j + 1];
    assert forall x :: x in c ==> x in d.book[p].stops;
    assert b in d.book[p].stops;
    assert HasStop(d.book[p], b.isBuy);
    FewerStops(d.book, e, p, c, base);
  }

  lemma FewerStops(book: seq<Level>, e: Edge, p: nat, c: seq<Bundle>, base: nat)
    requires p < |book| && Covered(book, e) && StopsPriced(book, base) && forall x :: x in c ==> x in book[p].stops
    ensures Covered(SetChain(book, p, Stops, c), e) && StopsPriced(SetChain(book, p, Stops, c), base)
  {
  }

  lemma IsStop(d: Books, p: nat, i: nat)
    requires Ok(d) && p < |d.book| && i < |d.book[p].stops|
    ensures d.book[p].stops[i].Stop?
  {
    hide Named, Unique, Found, Sided, Queued, Audited, Handled, Posted;
    assert d.book[p].stops[i] in Chain(d.book[p], Stops);
  }

  /** The stop window of a side without its level p, which is left empty. */
  function StopWindowCut(e: Edge, buys: bool, p: nat, n: nat): Edge
    requires if buys then e.lowBuyStop <= p <= e.highBuyStop else e.lowSellStop <= p <= e.highSellStop
  {
    if buys then
      if e.highBuyStop == e.lowBuyStop then e.(highBuyStop := 0, lowBuyStop := n)
      else if p == e.highBuyStop then e.(highBuyStop := p - 1)
      else if p == e.lowBuyStop then e.(lowBuyStop := p + 1)
      else e
    else
      if e.highSellStop == e.lowSellStop then e.(highSellStop := 0, lowSellStop := n)
      else if p == e.highSellStop then e.(highSellStop := p - 1)
      else if p == e.lowSellStop then e.(lowSellStop := p + 1)
      else e
  }

  function InsertedLimit(e: Edge, buys: bool, p: nat): Edge {
    if buys then
      e.(bid := if p >= e.bid then p else e.bid, lowBuyLimit := if p < e.lowBuyLimit then p else e.lowBuyLimit)
    else
      e.(ask := if p <= e.ask then p else e.ask, highSellLimit := if p > e.highSellLimit then p else e.highSellLimit)
  }

  function InsertedAon(e: Edge, buys: bool, p: nat): Edge {
    if buys then
      e.(highBuyAon := if p > e.highBuyAon then p else e.highBuyAon,
        lowBuyAon := if p < e.lowBuyAon then p else e.lowBuyAon)
    else
      e.(highSellAon := if p > e.highSellAon then p else e.highSellAon,
        lowSellAon := if p < e.lowSellAon then p else e.lowSellAon)
  }

  function InsertedStop(e: Edge, buys: bool, p: nat): Edge {
    if buys then
      e.(highBuyStop := if p > e.highBuyStop then p else e.highBuyStop,
        lowBuyStop := if p < e.lowBuyStop then p else e.lowBuyStop)
    else
      e.(highSellStop := if p > e.highSellStop then p else e.highSellStop,
        lowSellStop := if p < e.lowSellStop then p else e.lowSellStop)
  }

  lemma ReadyStill(d: Books, d': Books, k: Kind, b: Bundle)
    requires Ready(d, k, b) && d' == d.(bid := d'.bid, ask := d'.ask)
    ensures Ready(d', k, b) && b.id in d.ledger
  {
  }

  lemma CoveredLimit(book: seq<Level>, e: Edge, buys: bool, p: nat, b: Bundle)
    requires Covered(book, e) && 0 < p < |book| && if buys then p < e.ask else p > e.bid
    ensures Covered(Pushed(book, p, Limits, b), InsertedLimit(e, buys, p))
  {
    CoveredAsBefore(book, e, buys, p, b);
    hide StopEdges, AonEdges;
  }

  lemma PushedInside(book: seq<Level>, e: Edge, buys: bool, p: nat, b: Bundle)
    requires Inside(book, e.bid, e.ask) && 0 < p < |book|
    ensures var e' := InsertedLimit(e, buys, p); var book' := Pushed(book, p, Limits, b);
      && e.bid <= e'.bid && e'.ask <= e.ask && (if buys then p <= e'.bid else p >= e'.ask)
      && (0 < e'.bid < |book'| ==> book'[e'.bid].limits != []) && (e'.ask < |book'| ==> book'[e'.ask].limits != [])
  {
  }

  lemma CoveredAsBefore(book: seq<Level>, e: Edge, buys: bool, p: nat, b: Bundle)
    requires Covered(book, e) && 0 < p < |book|
    ensures StopEdges(Pushed(book, p, Limits, b), InsertedLimit(e, buys, p))
      && AonEdges(Pushed(book, p, Limits, b), InsertedLimit(e, buys, p))
  {
    hide Gap, FarLimits;
  }

  lemma CoveredAon(book: seq<Level>, e: Edge, buys: bool, p: nat, b: Bundle)
    requires Covered(book, e) && 0 < p < |book|
    ensures Covered(Pushed(book, p, AonKind(buys), b), InsertedAon(e, buys, p))
  {
    AonsPushed(book, e, buys, p, b);
    LimitsAside(book, e, buys, p, b);
    hide AonEdges, StopEdges, Gap, FarLimits;
  }

  /** An order in an AON chain touches no other edge. */
  lemma LimitsAside(book: seq<Level>, e: Edge, buys: bool, p: nat, b: Bundle)
    requires Covered(book, e) && 0 < p < |book|
    ensures var book' := Pushed(book, p, AonKind(buys), b); var e' := InsertedAon(e, buys, p);
      StopEdges(book', e') && Gap(book', e'.bid, e'.ask) && FarLimits(book', e'.bid, e'.ask, e'.lowBuyLimit,
        e'.highSellLimit)
  {
    hide AonEdges;
  }

  lemma AonsPushed(book: seq<Level>, e: Edge, buys: bool, p: nat, b: Bundle)
    requires AonEdges(book, e) && 0 < p < |book|
    ensures AonEdges(Pushed(book, p, AonKind(buys), b), InsertedAon(e, buys, p))
  {
  }

  lemma CoveredStop(book: seq<Level>, e: Edge, p: nat, b: Bundle)
    requires Covered(book, e) && 0 < p < |book| && b.Stop?
    ensures Covered(Pushed(book, p, Stops, b), InsertedStop(e, b.isBuy, p))
  {
    StopsPushed(book, e, p, b);
    hide StopEdges;
  }

  lemma StopsPushed(book: seq<Level>, e: Edge, p: nat, b: Bundle)
    requires StopEdges(book, e) && 0 < p < |book| && b.Stop?
    ensures StopEdges(Pushed(book, p, Stops, b), InsertedStop(e, b.isBuy, p))
  {
    var book' := Pushed(book, p, Stops, b);
    assert forall x :: x in book'[p].stops <==> x in book[p].stops || x == b;
    assert forall q, buys :: 0 <= q < |book| && HasStop(book'[q], buys) ==>
      HasStop(book[q], buys) || (q == p && buys == b.isBuy);
  }

  lemma PushedElsewhere(book: seq<Level>, p: nat, k: Kind, b: Bundle, base: nat)
    requires p < |book| && k != Stops && StopsPriced(book, base)
    ensures StopsPriced(Pushed(book, p, k, b), base)
    ensures forall q :: 0 <= q < |book| ==>
      Pushed(book, p, k, b)[q].limits == if q == p && k == Limits then book[q].limits + [b] else book[q].limits
  {
  }

  lemma PushedStop(book: seq<Level>, p: nat, b: Bundle, base: nat)
    requires p < |book| && b.Stop? && PricedIn(b.limit, base, |book|) && StopsPriced(book, base)
    ensures StopsPriced(Pushed(book, p, Stops, b), base)
    ensures forall q :: 0 <= q < |book| ==> Pushed(book, p, Stops, b)[q].limits == book[q].limits
  {
  }

  lemma StopsSame(cache: map<nat, Place>, id: nat, pl: Place)
    requires id !in cache && pl.kind != Stops
    ensures StopIds(cache[id := pl]) == StopIds(cache)
  {
  }

  lemma AonsUnmatched(book: seq<Level>, bids: bool, inside: nat, limit: nat, size: nat)
    requires 0 < limit < |book|
    ensures var m := Match(book, bids, inside, Outermost(bids, |book|), limit, size);
      m.fault || SameChains(book, m.book, AonKind(!bids))
  {
    hide Match;
    MatchFrame(book, bids, inside, Outermost(bids, |book|), limit, size);
  }

  lemma SameTrans(a: seq<Level>, b: seq<Level>, c: seq<Level>, k: Kind)
    requires SameChains(a, b, k) && SameChains(b, c, k)
    ensures SameChains(a, c, k)
  {
  }

  lemma OverlapStep(book: seq<Level>, bids: bool, q: nat, os: seq<Overlap>)
    requires Reaching(|book|, bids, q) && q != (if bids then |book| else 0)
    ensures os + Overlapped(book, bids, q) ==
      os + Tagged(q, Chain(book[q], AonKind(bids))) + Overlapped(book, bids, Next(!bids, q))
  {
  }

  lemma AonTallies(d: Books, p: nat, k: Kind, b: Bundle)
    requires Ok(d) && p < |d.book| && b in Chain(d.book[p], k)
    ensures b.id in d.ledger && Tallies(b, k, d.ledger[b.id])
  {
    hide Named, Unique, Found, Sided, Queued, Audited, Handled, Posted;
  }

  lemma OutOfWork(queue: seq<Ticket>, hand: set<nat>, work: set<nat>, id: nat)
    requires InWork(queue, hand, work + {id}) && id !in work
    ensures InWork(queue, hand - {id}, work) && forall t :: t in queue ==> t.id != id
  {
    forall t | t in queue ensures t.id != id {
      assert t.id in QueueIds(queue);
    }
  }

  /** x, with left open, is done after trading that with y. */
  function DealtWith(d: Books, x: nat, y: nat, left: nat, price: int): Books
    requires x in d.ledger && y in d.ledger
  {
    if left > 0 then
      d.(ledger := Credit(Credit(d.ledger, x, left), y, left), tape := d.tape + [Sale(price, left, x, y)],
        hand := d.hand - {x})
    else d.(hand := d.hand - {x})
  }

  lemma ClosedOk(d: Books, id: nat, left: nat, rmndr: nat, price: int, w: Job)
    requires Ok(d) && Holding(d.queue, d.ledger, d.hand, id, left, !w.isBuy) && left <= rmndr
    requires Holding(d.queue, d.ledger, d.hand, w.id, rmndr, w.isBuy)
    requires Carried(w.ledger, d.ledger, w.keep) && w.keep <= d.hand && id !in w.keep && w.id !in w.keep
    requires InWork(d.queue, d.hand, w.work + {id}) && id !in w.work && id != w.id
    ensures var d' := DealtWith(d, id, w.id, left, price);
      && Ok(d') && Holding(d'.queue, d'.ledger, d'.hand, w.id, rmndr - left, w.isBuy)
        && Carried(w.ledger, d'.ledger, w.keep)
      && w.keep <= d'.hand && InWork(d'.queue, d'.hand, w.work)
  {
    hide Ok, Carried, InWork;
    var d1 := d;
    CarryCredit(w.ledger, d.ledger, w.keep, id, w.id, left);
    if left > 0 {
      DealOk(d, id, w.id, left, price);
      d1 := Deal(d, id, w.id, left, price);
    }
    SettleOk(d1, id);
    assert d1.(hand := d1.hand - {id}) == DealtWith(d, id, w.id, left, price);
    OutOfWork(d.queue, d.hand, w.work, id);
  }

  lemma Prefix(n: nat, os: seq<Overlap>)
    requires Leveled(n, os) && os != []
    ensures 0 < os[|os| - 1].level < n && Leveled(n, os[..|os| - 1])
  {
    assert os[|os| - 1] in os;
  }

  lemma DequeueWork(queue: seq<Ticket>, hand: set<nat>)
    requires InWork(queue, hand, {}) && queue != []
    requires forall t :: t in queue[1..] ==> t.id != queue[0].id
    ensures InWork(queue[1..], hand, {queue[0].id}) && InWork(queue[1..], hand - {queue[0].id}, {})
  {
    assert queue == [queue[0]] + queue[1..];
    assert forall t :: t in queue <==> t == queue[0] || t in queue[1..];
    assert QueueIds(queue) == QueueIds(queue[1..]) + {queue[0].id};
  }

  lemma NothingQueued(queue: seq<Ticket>, hand: set<nat>)
    requires InWork(queue, hand, {}) && queue == []
    ensures hand == {}
  {
  }

  lemma CarryAll(l: map<nat, Account>)
    ensures Carried(l, l, {})
  {
  }

  lemma CarryTrans(l: map<nat, Account>, l': map<nat, Account>, l'': map<nat, Account>)
    requires Carried(l, l', {}) && Carried(l', l'', {})
    ensures Carried(l, l'', {})
  {
  }

  lemma CarryRelease(l: map<nat, Account>, id: nat)
    requires id in l && Open(l[id]) >= 0
    ensures Carried(l, l[id := l[id].(released := l[id].released + Open(l[id]))], {})
  {
  }

  lemma CarryDrop(l: map<nat, Account>, l': map<nat, Account>, keep: set<nat>, id: nat)
    requires Carried(l, l', keep) && id in l' && id !in keep && Open(l'[id]) >= 0
    ensures Carried(l, l'[id := l'[id].(released := l'[id].released + Open(l'[id]))], keep)
  {
  }

  lemma CarryNew(l: map<nat, Account>, id: nat, l': map<nat, Account>)
    requires id !in l && id in l' && l' == l[id := l'[id]]
    ensures Carried(l, l', {})
  {
  }

  lemma CarriedTerms(l: map<nat, Account>, l': map<nat, Account>, keep: set<nat>, id: nat)
    requires Carried(l, l', keep) && id in l
    ensures id in l' && l'[id].isBuy == l[id].isBuy && l'[id].aon == l[id].aon && l'[id].size == l[id].size
    ensures Open(l'[id]) <= Open(l[id])
  {
  }

  lemma PricedRest(queue: seq<Ticket>, base: nat, n: nat)
    requires QueuePriced(queue, base, n) && queue != []
    ensures QueuePriced(queue[1..], base, n)
  {
    assert forall t :: t in queue[1..] ==> t in queue;
  }

  lemma Renamed(t: Ticket, id: nat, base: nat, n: nat)
    ensures Acceptable(t.(id := id), base, n) == Acceptable(t, base, n)
  {
  }

  lemma Padded(d: Books)
    requires Ok(d)
    ensures |d.book| > 1 && d.book[0] == VACANT
  {
  }

  lemma GrownPriced(book: seq<Level>, incr: nat, below: bool, base: nat)
    requires |book| > 1 && book[0] == VACANT && StopsPriced(book, base) && base >= Offset(incr, below)
    ensures StopsPriced(Grown(book, incr, below), base - Offset(incr, below))
  {
    var book' := Grown(book, incr, below);
    forall p, b | 0 <= p < |book'| && b in book'[p].stops && b.Stop?
      ensures PricedIn(b.limit, base - Offset(incr, below), |book'|) {
      WasIn(book, incr, below, p, Stops, b);
    }
  }

  /** The inside levels, if any, are the same levels. */
  lemma GrownTight(book: seq<Level>, e: Edge, incr: nat, below: bool)
    requires |book| > 1 && Inside(book, e.bid, e.ask)
    ensures var e' := GrownEdges(e, |book|, incr, Offset(incr, below)); var book' := Grown(book, incr, below);
      (0 < e'.bid < |book'| ==> book'[e'.bid].limits != []) && (e'.ask < |book'| ==> book'[e'.ask].limits != [])
  {
  }

  lemma NonePriced(queue: seq<Ticket>, base: nat, n: nat)
    requires queue == []
    ensures QueuePriced(queue, base, n)
  {
  }

  /** Pulling an order from a plain book leaves it plain. */
  lemma PulledPlain(book: seq<Level>, cache: map<nat, Place>, ask: nat, id: nat)
    requires Located(book, cache, id) && PlainBook(book)
    ensures !PullFaults(book, cache, ask, id) && PlainBook(Pulled(book, cache, id))
  {
    var p := cache[id].level;
    var c := Chain(book[p], cache[id].kind);
    var cut := Cut(book, cache, id);
    WithoutPlain(book[p].limits, IndexOf(c, id));
    assert PlainChain(cut[p].limits);
    LimitsUnhit(cut, p);
    assert cut[p].limits[0..] == cut[p].limits && cut[p].limits[..0] == [];
  }

  lemma WithoutPlain(c: seq<Bundle>, i: nat)
    requires PlainChain(c)
    ensures i < |c| ==> PlainChain(Without(c, i))
  {
  }

  lemma PreNext(f: Floor, bids: bool, os: seq<Overlap>, o: Overlap, rest: seq<Overlap>, p: nat, id: nat, aon: bool,
          rmndr: nat, base: nat)
    requires Leveled(|f.book|, os) && os != [] && rmndr > 0 && o == os[|os| - 1] && rest == os[..|os| - 1]
    requires 0 < o.level < |f.book| && Leveled(|f.book|, rest)
    ensures var left := Looked(f, bids, o.level, o.bundle.sz);
      var r := Executed(f, bids, o, base);
      PrePass(f, bids, os, p, id, aon, rmndr, base) ==
        if Suffices(aon, left, rmndr) then
          if r.fault then Passed(r.f, 0, true)
          else PrePass(Closed(r.f, p, o.bundle.id, id, left, base), bids, rest, p, id, aon, rmndr - left, base)
        else PrePass(f, bids, rest, p, id, aon, rmndr, base)
  {
    hide Looked, Executed, Leveled, Closed, Suffices;
  }

  /** One order of the pass before trading. */
  lemma PreStep(f: Floor, bids: bool, os: seq<Overlap>, p: nat, id: nat, aon: bool, rmndr: nat, base: nat)
    requires Leveled(|f.book|, os) && os != [] && rmndr > 0
    ensures var o := os[|os| - 1];
      var rest := os[..|os| - 1];
      && 0 < o.level < |f.book| && Leveled(|f.book|, rest)
      && var left := Looked(f, bids, o.level, o.bundle.sz);
      var r := Executed(f, bids, o, base);
      && r.left == left
      && PrePass(f, bids, os, p, id, aon, rmndr, base) ==
           if Suffices(aon, left, rmndr) then
             if r.fault then Passed(r.f, 0, true)
             else PrePass(Closed(r.f, p, o.bundle.id, id, left, base), bids, rest, p, id, aon, rmndr - left, base)
           else PrePass(f, bids, rest, p, id, aon, rmndr, base)
  {
    hide Looked, Executed, Leveled, Closed, Suffices, PrePass;
    Prefix(|f.book|, os);
    ExecutedLeft(f, bids, os[|os| - 1], base);
    PreNext(f, bids, os, os[|os| - 1], os[..|os| - 1], p, id, aon, rmndr, base);
  }

  /** One order of the pass after resting. */
  lemma PostStep(f: Floor, bids: bool, os: seq<Overlap>, base: nat)
    requires Leveled(|f.book|, os) && os != []
    ensures var o := os[|os| - 1];
      var rest := os[..|os| - 1];
      && 0 < o.level < |f.book| && Leveled(|f.book|, rest)
      && var left := Looked(f, bids, o.level, o.bundle.sz);
      var r := Executed(f, bids, o, base);
      && r.left == left
      && PostPass(f, bids, os, base) ==
           if left == 0 then if r.fault then Passed(r.f, 0, true) else PostPass(r.f, bids, rest, base)
           else PostPass(f, bids, rest, base)
  {
    Prefix(|f.book|, os);
    hide Looked, Executed, Leveled;
    ExecutedLeft(f, bids, os[|os| - 1], base);
  }

  /** A walk outwards ends at the first level with limit orders. */
  lemma {:induction false} OutwardIs(book: seq<Level>, bids: bool, p: nat, q: nat)
    requires Beyond(bids, p, q) && p <= |book| && q <= |book|
    requires forall r :: 0 <= r < |book| && Beyond(bids, p, r) && Beyond(bids, r, q) && r != q ==> book[r].limits == []
    requires if bids then q == 0 || (q < |book| && book[q].limits != []) else q == |book| || book[q].limits != []
    ensures Outward(book, bids, p) == q
    decreases if bids then p else |book| - p
  {
    if p != q {
      assert Beyond(bids, p, p) && Beyond(bids, p, q);
      OutwardIs(book, bids, Next(bids, p), q);
    }
  }

  /** The tape tells the level of the last trade. */
  ghost predicate Taped(tape: seq<Sale>, last: nat, base: nat) {
    (last > 0 <==> tape != []) && (tape != [] ==> tape[|tape| - 1].price == base + last - 1)
  }

  lemma LastTaped(tape: seq<Sale>, last: nat, fills: seq<Fill>, taker: nat, base: nat, last': nat)
    requires Taped(tape, last, base) && Taped(tape + SalesOf(fills, taker, base), last', base)
    ensures last' == LastLevel(fills, last)
  {
    if fills == [] {
      assert tape + [] == tape;
    } else {
      var n := |fills| - 1;
      assert fills == fills[..n] + [fills[n]];
      SalesPush(fills[..n], fills[n], taker, base);
    }
  }

  /** The near edges of the all-or-none orders, if not reset, are levels with such orders. */
  predicate NearAons(book: seq<Level>, high: nat, low: nat) {
    (0 < high < |book| ==> book[high].aonBuys != []) && (low < |book| ==> book[low].aonSells != [])
  }

  /** The AON chain of a level is set to c. */
  lemma NearSet(book: seq<Level>, high: nat, low: nat, p: nat, buys: bool, c: seq<Bundle>)
    requires p < |book| && NearAons(book, high, low)
    ensures var book' := SetChain(book, p, AonKind(buys), c);
      && (c != [] ==> NearAons(book', high, low))
      && NearAons(book', if buys && high == p then 0 else high, if !buys && low == p then |book| else low)
  {
  }

  lemma NearStruck(book: seq<Level>, high: nat, low: nat, p: nat, c: seq<Bundle>)
    requires p < |book| && NearAons(book, high, low)
    ensures NearAons(SetChain(book, p, Limits, c), high, low)
  {
  }

  lemma NearStops(book: seq<Level>, high: nat, low: nat, p: nat, c: seq<Bundle>)
    requires p < |book| && NearAons(book, high, low)
    ensures NearAons(SetChain(book, p, Stops, c), high, low)
  {
  }

  /** Only stops were taken out. */
  ghost predicate Unswept(book: seq<Level>, book': seq<Level>) {
    |book'| == |book| && forall p :: 0 <= p < |book| ==> book'[p].(stops := []) == book[p].(stops := [])
  }

  lemma SweptApart(book: seq<Level>, lo: nat, last: nat, hi: nat)
    ensures Unswept(book, Swept(Swept(book, lo, last), last, hi))
  {
  }

  lemma NearUnswept(book: seq<Level>, book': seq<Level>, high: nat, low: nat)
    requires NearAons(book, high, low) && Unswept(book, book')
    ensures NearAons(book', high, low)
  {
    assert forall p :: 0 <= p < |book| ==> book'[p].aonBuys == book'[p].(stops := []).aonBuys;
  }

  lemma AonsUnswept(book: seq<Level>, book': seq<Level>, k: Kind)
    requires Unswept(book, book') && k != Stops
    ensures SameChains(book, book', k)
  {
    forall p | 0 <= p < |book| ensures Chain(book'[p], k) == Chain(book[p], k) {
      assert Chain(book'[p], k) == Chain(book'[p].(stops := []), k);
      assert Chain(book[p], k) == Chain(book[p].(stops := []), k);
    }
  }

  lemma PreEnd(f: Floor, bids: bool, os: seq<Overlap>, p: nat, id: nat, aon: bool, rmndr: nat, base: nat)
    requires Leveled(|f.book|, os) && (os == [] || rmndr == 0)
    ensures PrePass(f, bids, os, p, id, aon, rmndr, base) == Passed(f, rmndr, false)
  {
  }

  lemma PostEnd(f: Floor, bids: bool, os: seq<Overlap>, base: nat)
    requires os == []
    ensures Leveled(|f.book|, os) && PostPass(f, bids, os, base) == Passed(f, 0, false)
  {
  }

  lemma PullCut(book: seq<Level>, cache: map<nat, Place>, bids: bool, o: Overlap)
    requires Located(book, cache, o.bundle.id) && cache[o.bundle.id] == Place(AonKind(bids), o.level)
    ensures Pull(book, bids, o) == Cut(book, cache, o.bundle.id)
  {
  }

  lemma NearPushed(book: seq<Level>, high: nat, low: nat, p: nat, k: Kind, b: Bundle)
    requires p < |book| && NearAons(book, high, low)
    ensures NearAons(Pushed(book, p, k, b), high, low)
  {
  }

  /** A new all-or-none order may be the nearest. */
  lemma NearAdded(book: seq<Level>, e: Edge, p: nat, buys: bool, b: Bundle)
    requires p < |book| && NearAons(book, e.highBuyAon, e.lowSellAon)
    ensures var e' := InsertedAon(e, buys, p); NearAons(Pushed(book, p, AonKind(buys), b), e'.highBuyAon, e'.lowSellAon)
  {
  }

  lemma StopsMore(cache: map<nat, Place>, id: nat, pl: Place)
    requires pl.kind == Stops
    ensures id !in cache ==> |StopIds(cache[id := pl])| == |StopIds(cache)| + 1
  {
    if id !in cache {
      assert StopIds(cache[id := pl]) == StopIds(cache) + {id};
    }
  }

  /** How a window ends, as the reference has it. */
  ghost predicate Ends(st: Status, r: Passed) {
    && (st.Done? || st.Fault? || st.Liquidity?) && (st.Fault? <==> r.fault)
    && (!r.fault ==> (st.Liquidity? <==> r.left > 0) && (st.Liquidity? ==> st.left == r.left))
  }

  /** The floor once a stop of level p was pulled, of which book is left. */
  function StopGone(f: Floor, book: seq<Level>, buys: bool, p: nat): Floor
    requires p < |book|
  {
    var f1 := f.(book := book);
    if book[p].stops != [] then f1
    else if buys then
      if f.highBuyStop == f.lowBuyStop then f1.(highBuyStop := 0, lowBuyStop := |book|)
      else if p == f.highBuyStop && p > 0 then f1.(highBuyStop := p - 1)
      else if p == f.lowBuyStop then f1.(lowBuyStop := p + 1)
      else f1
    else
      if f.highSellStop == f.lowSellStop then f1.(highSellStop := 0, lowSellStop := |book|)
      else if p == f.highSellStop && p > 0 then f1.(highSellStop := p - 1)
      else if p == f.lowSellStop then f1.(lowSellStop := p + 1)
      else f1
  }

  /** With the last stop of an end of its window gone, the window of the side is what it was without that
      level; otherwise, and for the other side, it stays; and no pass to come sweeps more than before. */
  lemma StopGoneWindow(f: Floor, book: seq<Level>, buys: bool, p: nat, q: nat)
    requires |book| == |f.book| && p < |book| && q < |book|
    requires if buys then f.lowBuyStop <= p <= f.highBuyStop else f.lowSellStop <= p <= f.highSellStop
    requires f.highBuyStop < |book| && f.highSellStop < |book|
    ensures var g := StopGone(f, book, buys, p);
      var emptied := q == p && book[p].stops == [];
      var buyEnd := buys && emptied && (q == f.lowBuyStop || q == f.highBuyStop);
      var sellEnd := !buys && emptied && (q == f.lowSellStop || q == f.highSellStop);
      && (g.lowBuyStop <= q <= g.highBuyStop <==> f.lowBuyStop <= q <= f.highBuyStop && !buyEnd)
      && (g.lowSellStop <= q <= g.highSellStop <==> f.lowSellStop <= q <= f.highSellStop && !sellEnd)
      && f.lowBuyStop <= g.lowBuyStop && g.highSellStop <= f.highSellStop
  {
  }

  /** The floor after id is pulled. */
  function PulledFloor(f: Floor, cache: map<nat, Place>, id: nat): (r: Floor)
    requires Located(f.book, cache, id)
    ensures |r.book| == |f.book|
  {
    var book := Pulled(f.book, cache, id);
    match cache[id].kind
    case Limits => f.(book := book, bid := Outward(book, true, f.bid), ask := Outward(book, false, f.ask))
    case Stops =>
      var b := BundleOf(f.book, cache, id);
      if b.Stop? then StopGone(f, book, b.isBuy, cache[id].level) else f.(book := book)
    case _ => f.(book := book)
  }

  /** Pulling, kind by kind. */
  lemma PulledKinds(f: Floor, cache: map<nat, Place>, id: nat)
    requires Located(f.book, cache, id)
    ensures var p := cache[id].level;
      var cut := Cut(f.book, cache, id);
      var n := FrontAons(cut[p].limits);
      var r := PulledFloor(f, cache, id);
      match cache[id].kind
      case Limits =>
        var book := LimitsHit(cut, p, cut[p].limits[n..], cut[p].limits[..n]);
        r == f.(book := book, bid := Outward(book, true, f.bid), ask := Outward(book, false, f.ask))
      case Stops =>
        var b := BundleOf(f.book, cache, id);
        b.Stop? ==> r == StopGone(f, cut, b.isBuy, p)
      case _ => r == f.(book := cut)
  {
    hide Cut, LimitsHit, Outward, FrontAons, StopGone;
  }

  /** Whoever is pulled leaves its chain and the others stay in their order; of a limit chain the n
      all-or-none orders then in front go to the back of the AON buys. No other chain changes. */
  lemma PulledChains(f: Floor, cache: map<nat, Place>, id: nat) returns (i: nat, n: nat)
    requires Located(f.book, cache, id)
    ensures var p, k := cache[id].level, cache[id].kind;
      var c := Chain(f.book[p], k);
      && i < |c| && c[i].id == id
      && var rest := c[..i] + c[i + 1..];
      && n <= |rest| && (forall j :: 0 <= j < n ==> IsAon(rest[j]))
      && (if k == Limits then n < |rest| ==> !IsAon(rest[n]) else n == 0)
      && var l := f.book[p];
      PulledFloor(f, cache, id).book == f.book[p := match k
        case Limits => l.(limits := rest[n..], aonBuys := l.aonBuys + rest[..n])
        case Stops => l.(stops := rest)
        case AonBuys => l.(aonBuys := rest)
        case AonSells => l.(aonSells := rest)]
  {
    PulledBook(f, cache, id);
    hide PulledFloor, IndexOf;
    var p, k := cache[id].level, cache[id].kind;
    i := IndexOf(Chain(f.book[p], k), id);
    n := if k == Limits then FrontAons(Cut(f.book, cache, id)[p].limits) else 0;
  }

  lemma PulledBook(f: Floor, cache: map<nat, Place>, id: nat)
    requires Located(f.book, cache, id)
    ensures PulledFloor(f, cache, id).book == Pulled(f.book, cache, id)
  {
    hide Pulled, Outward;
  }

  lemma LimitPushed(book: seq<Level>, p: nat, b: Bundle)
    requires p < |book|
    ensures Pushed(book, p, Limits, b) == book[p := book[p].(limits := book[p].limits + [b])]
  {
  }

  lemma AonPushed(book: seq<Level>, p: nat, buys: bool, b: Bundle)
    requires p < |book|
    ensures Pushed(book, p, AonKind(buys), b) == book[p := if buys then book[p].(aonBuys := book[p].aonBuys + [b])
      else book[p].(aonSells := book[p].aonSells + [b])]
  {
  }

  lemma PulledSame(f: Floor, cache: map<nat, Place>, id: nat)
    requires Located(f.book, cache, id)
    ensures var r := PulledFloor(f, cache, id); r.lastId == f.lastId && r.check == f.check && |r.book| == |f.book|
  {
    hide Pulled, Outward;
  }

  /** The next order of the queue enters. */
  lemma DrainStep(f: Floor, base: nat, n: nat)
    requires |f.book| > 1 && f.queue != [] && n > 0 && Acceptable(f.queue[0], base, |f.book|)
    ensures Drained(f, base, n) ==
      var r := Entered(f.(queue := f.queue[1..]), f.queue[0], base);
      if r.fault then r else if r.left > 0 then Cleared(r) else Drained(r.f, base, n - 1)
  {
    hide Entered, Acceptable;
  }

  lemma StopsLess(cache: map<nat, Place>, id: nat)
    requires id in cache
    ensures |StopIds(cache - {id})| <= |StopIds(cache)|
  {
    assert StopIds(cache - {id}) == StopIds(cache) - {id};
  }

  lemma GrownNear(book: seq<Level>, e: Edge, incr: nat, below: bool)
    requires |book| > 1 && NearAons(book, e.highBuyAon, e.lowSellAon) && Covered(book, e)
    ensures var e' := GrownEdges(e, |book|, incr, Offset(incr, below));
      NearAons(Grown(book, incr, below), e'.highBuyAon, e'.lowSellAon)
  {
    hide Covered, Vacancies, Grown;
    CoveredAons(book, e);
  }

  /** The tape has prices, which growth does not change. */
  lemma GrownTaped(tape: seq<Sale>, last: nat, base: nat, min: nat, off: nat)
    requires Taped(tape, last, base) && min + off == base
    ensures Taped(tape, Low(last, off), min)
  {
  }

  lemma StopGoneSame(f: Floor, book: seq<Level>, buys: bool, p: nat)
    requires p < |book|
    ensures StopGone(f.(book := book), book, buys, p) == StopGone(f, book, buys, p)
  {
  }

  /** id is pulled, unless a sell steps aside. */
  ghost predicate PulledTo(f: Floor, cache: map<nat, Place>, id: nat, st: Status, f': Floor) {
    && Located(f.book, cache, id)
    && if PullFaults(f.book, cache, f.ask, id) then st.Fault? else st.Done? && f' == PulledFloor(f, cache, id)
  }

  /** A window in which id is pulled, unless a sell steps aside, and a new order enters in its place. */
  ghost predicate ReplacedTo(f: Floor, cache: map<nat, Place>, id: nat, t: Ticket, base: nat, n: nat, st: Status,
          f': Floor) {
    && Located(f.book, cache, id) && |f.book| > 1 && Acceptable(t, base, |f.book|)
    && if PullFaults(f.book, cache, f.ask, id) then st.Fault?
       else
         var r := Windowed(PulledFloor(f, cache, id), t, base, n);
         Ends(st, r) && (!st.Fault? ==> f' == r.f)
  }
}
