/** What the invariant between execution windows says of every reachable book. */
module Properties {
  import opened Ladder
  import opened Desk
  import opened Edges
  import opened Groundwork
  import opened Orderbook
  import opened Growth
  import opened Reference
  import opened Worlds
  import Plain

  /** An all-or-none order is filled entirely or not at all, and rests with its whole size. */
  lemma AllOrNothing(o: Book, id: nat)
    requires o.Idle() && id in o.ledger && o.ledger[id].aon
    ensures o.ledger[id].filled == 0 || o.ledger[id].filled == o.ledger[id].size
    ensures id in o.cache ==> o.ledger[id].filled == 0 && o.ledger[id].released == 0
    ensures id in o.cache ==> Located(o.book, o.cache, id) && BundleOf(o.book, o.cache, id).sz == o.ledger[id].size
    ensures id in o.cache ==> Traded(o.timesales, id) == 0
  {
    hide Named, Unique, Found, Sided, Queued, Covered;
    if id in o.cache {
      InPlace(o.D(), id);
      var pl := o.cache[id];
      var b := BundleOf(o.book, o.cache, id);
      AonTallies(o.D(), pl.level, pl.kind, b);
      assert IsAon(b) || b.Stop?;
    }
  }

  /** Bundle b is at index i of chain k of level p. */
  ghost predicate At(o: Book, p: int, k: Kind, i: int, b: Bundle)
    reads o
  {
    0 <= p < |o.book| && 0 <= i < |Chain(o.book[p], k)| && Chain(o.book[p], k)[i] == b
  }

  /** The id cache and the resting orders are in bijection: every resting order is cached at
      its place, every cached id is an order there, and no two orders share an id. */
  lemma CacheBijection(o: Book)
    requires o.Idle()
    ensures forall p, k, i, b :: At(o, p, k, i, b) ==> b.id in o.cache && o.cache[b.id] == Place(k, p) && b.sz > 0
    ensures forall id :: id in o.cache ==>
      exists i, b :: At(o, o.cache[id].level, o.cache[id].kind, i, b) && b.id == id
    ensures forall p, k, i, b, q, k', j, c :: At(o, p, k, i, b) && At(o, q, k', j, c) && b.id == c.id ==>
      p == q && k == k' && i == j
  {
    hide Sided, Queued, Audited, Posted, Covered;
    forall p, k, i, b | At(o, p, k, i, b) ensures b.id in o.cache && o.cache[b.id] == Place(k, p) && b.sz > 0 {
      assert b in Chain(o.book[p], k);
      AonTallies(o.D(), p, k, b);
    }
    forall id | id in o.cache ensures exists i, b :: At(o, o.cache[id].level, o.cache[id].kind, i, b) && b.id == id {
      InPlace(o.D(), id);
      var c := Chain(o.book[o.cache[id].level], o.cache[id].kind);
      var i := IndexOf(c, id);
      assert At(o, o.cache[id].level, o.cache[id].kind, i, c[i]);
    }
    forall p, k, i, b, q, k', j, c | At(o, p, k, i, b) && At(o, q, k', j, c) && b.id == c.id
      ensures p == q && k == k' && i == j
    {
      assert b in Chain(o.book[p], k) && c in Chain(o.book[q], k');
      assert Distinct(Chain(o.book[p], k));
    }
  }

  /** The side of a limit order, which no bundle records, is recovered from its level. */
  lemma SideRecovered(o: Book, p: nat, b: Bundle)
    requires o.Idle() && p < |o.book| && b in o.book[p].limits
    ensures b.id in o.ledger && (o.ledger[b.id].isBuy <==> p < o.ask) && (o.ledger[b.id].isBuy <==> p <= o.bid)
  {
    hide Named, Unique, Found, Queued, Audited, Posted, AonEdges, StopEdges;
    AonTallies(o.D(), p, Limits, b);
  }

  /** A level of the limit chains holds an order of a side. */
  ghost predicate HasLimit(o: Book, p: nat, isBuy: bool)
    reads o
  {
    p < |o.book| && exists b :: b in o.book[p].limits && b.id in o.ledger && o.ledger[b.id].isBuy == isBuy
  }

  /** The inside pointers are exact and uncrossed: the bid is the highest level with a buy
      limit order, the ask the lowest with a sell, and the bid is below the ask. */
  lemma InsideExact(o: Book)
    requires o.Idle()
    ensures o.bid < o.ask
    ensures o.bid > 0 ==> HasLimit(o, o.bid, true)
    ensures o.ask < |o.book| ==> HasLimit(o, o.ask, false)
    ensures forall p: nat ::
      (HasLimit(o, p, true) ==> 0 < p <= o.bid) && (HasLimit(o, p, false) ==> o.ask <= p < |o.book|)
  {
    hide Named, Unique, Found, Queued, Audited, Posted, AonEdges, StopEdges;
    if o.bid > 0 {
      var b := o.book[o.bid].limits[0];
      SideRecovered(o, o.bid, b);
    }
    if o.ask < |o.book| {
      var b := o.book[o.ask].limits[0];
      SideRecovered(o, o.ask, b);
    }
  }

  /** No size is lost: an order was filled, given up, or still rests. */
  lemma SizeConserved(o: Book, id: nat)
    requires o.Idle() && id in o.ledger
    ensures var a := o.ledger[id];
      && Traded(o.timesales, id) == a.filled
      && (id in o.cache ==>
            Located(o.book, o.cache, id) && a.size == BundleOf(o.book, o.cache, id).sz + a.filled + a.released)
      && (id !in o.cache ==> a.size == a.filled + a.released)
  {
    hide Named, Unique, Found, Sided, Queued, Covered, Tallies;
    if id in o.cache {
      InPlace(o.D(), id);
      var pl := o.cache[id];
      AonTallies(o.D(), pl.level, pl.kind, BundleOf(o.book, o.cache, id));
      OpenIsSize(o.D(), pl.level, pl.kind, BundleOf(o.book, o.cache, id));
    }
  }

  lemma OpenIsSize(d: Books, p: nat, k: Kind, b: Bundle)
    requires b.id in d.ledger && Tallies(b, k, d.ledger[b.id])
    ensures Open(d.ledger[b.id]) == b.sz
  {
  }

  /** What all orders of a side with ids up to n have filled, as their accounts have it ... */
  ghost function FilledBy(ledger: map<nat, Account>, isBuy: bool, n: nat): nat {
    if n == 0 then 0
    else FilledBy(ledger, isBuy, n - 1) + if n in ledger && ledger[n].isBuy == isBuy then ledger[n].filled else 0
  }

  /** ... and as the tape has it. */
  ghost function TradedBy(tape: seq<Sale>, ledger: map<nat, Account>, isBuy: bool, n: nat): nat {
    if n == 0 then 0
    else TradedBy(tape, ledger, isBuy, n - 1) + if n in ledger && ledger[n].isBuy == isBuy then Traded(tape, n) else 0
  }

  lemma {:induction false} FilledTraded(tape: seq<Sale>, ledger: map<nat, Account>, isBuy: bool, n: nat)
    requires forall id :: id in ledger ==> Traded(tape, id) == ledger[id].filled
    ensures FilledBy(ledger, isBuy, n) == TradedBy(tape, ledger, isBuy, n)
  {
    if n > 0 {
      FilledTraded(tape, ledger, isBuy, n - 1);
    }
  }

  /** One more sale counts once for either side. */
  lemma {:induction false} TradedPush(tape: seq<Sale>, s: Sale, ledger: map<nat, Account>, isBuy: bool, n: nat)
    requires s.taker in ledger && s.maker in ledger && ledger[s.taker].isBuy != ledger[s.maker].isBuy && s.taker > 0
      && s.maker > 0
    ensures TradedBy(tape + [s], ledger, isBuy, n) == TradedBy(tape, ledger, isBuy, n)
      + if (if ledger[s.taker].isBuy == isBuy then s.taker else s.maker) <= n then s.size else 0
  {
    if n > 0 {
      TradedPush(tape, s, ledger, isBuy, n - 1);
      assert (tape + [s])[..|tape|] == tape;
    }
  }

  lemma {:induction false} TradedAll(tape: seq<Sale>, ledger: map<nat, Account>, isBuy: bool, n: nat)
    requires forall s :: s in tape ==>
      s.taker in ledger && s.maker in ledger && ledger[s.taker].isBuy != ledger[s.maker].isBuy
    requires forall id :: id in ledger ==> 0 < id <= n
    ensures TradedBy(tape, ledger, isBuy, n) == Volume(tape)
  {
    if tape == [] {
      TradedNone(ledger, isBuy, n);
    } else {
      var t := tape[..|tape| - 1];
      var s := tape[|tape| - 1];
      assert s in tape && tape == t + [s];
      TradedAll(t, ledger, isBuy, n);
      TradedPush(t, s, ledger, isBuy, n);
    }
  }

  lemma {:induction false} TradedNone(ledger: map<nat, Account>, isBuy: bool, n: nat)
    ensures TradedBy([], ledger, isBuy, n) == 0
  {
    if n > 0 {
      TradedNone(ledger, isBuy, n - 1);
    }
  }

  /** Everything bought was sold, and both are the total volume and the sum of the time-and-sales sizes. */
  lemma Turnover(o: Book)
    requires o.Idle()
    ensures FilledBy(o.ledger, true, o.lastId) == FilledBy(o.ledger, false, o.lastId) == o.totalVolume ==
      Volume(o.timesales)
  {
    hide Named, Unique, Found, Tallied, Sided, Queued, Covered, Volume, Traded;
    FilledTraded(o.timesales, o.ledger, true, o.lastId);
    FilledTraded(o.timesales, o.ledger, false, o.lastId);
    TradedAll(o.timesales, o.ledger, true, o.lastId);
    TradedAll(o.timesales, o.ledger, false, o.lastId);
  }

  /** What the source asserts of its pointers in debug builds holds after every window. */
  lemma InternalPointers(o: Book)
    requires o.Idle()
    ensures var n := |o.book|;
      && (o.bid != 0 && o.ask != n ==> o.ask > o.bid)
      && (o.bid != 0 && o.lowBuyLimit != n ==> o.lowBuyLimit <= o.bid)
      && (o.highSellLimit != 0 && o.ask != n ==> o.highSellLimit >= o.ask)
      && (o.highSellLimit != 0 && o.lowBuyLimit != n ==> o.highSellLimit > o.lowBuyLimit)
      && (o.lowBuyStop != n || o.highBuyStop != 0 ==> o.highBuyStop >= o.lowBuyStop)
      && (o.lowSellStop != n || o.highSellStop != 0 ==> o.highSellStop >= o.lowSellStop)
    ensures o.last < |o.book| && o.bid < |o.book| && 0 < o.ask <= |o.book| && o.highSellLimit < |o.book|
      && 0 < o.lowBuyLimit <= |o.book|
  {
    hide Named, Unique, Found, Tallied, Sided, Queued, Audited, Posted, Volume;
  }

  /** The edges of a side cover its chains: nothing rests outside of them. */
  lemma EdgesCover(o: Book, p: nat)
    requires o.Idle() && p < |o.book|
    ensures HasLimit(o, p, true) ==> o.lowBuyLimit <= p <= o.bid
    ensures HasLimit(o, p, false) ==> o.ask <= p <= o.highSellLimit
    ensures o.book[p].aonBuys != [] ==> o.lowBuyAon <= p <= o.highBuyAon
    ensures o.book[p].aonSells != [] ==> o.lowSellAon <= p <= o.highSellAon
    ensures HasStop(o.book[p], true) ==> o.lowBuyStop <= p <= o.highBuyStop
    ensures HasStop(o.book[p], false) ==> o.lowSellStop <= p <= o.highSellStop
  {
    hide Named, Unique, Found, Tallied, Queued, Audited, Posted, Volume;
    assert o.book[p].aonBuys == Chain(o.book[p], AonBuys) && o.book[p].aonSells == Chain(o.book[p], AonSells);
  }

  lemma EmptyPlain(book: seq<Level>)
    requires forall p :: 0 <= p < |book| ==> book[p] == VACANT
    ensures Plain.PlainBook(book)
  {
  }

  lemma GrownPlain(book: seq<Level>, incr: nat, below: bool)
    requires Plain.PlainBook(book)
    ensures Plain.PlainBook(Grown(book, incr, below))
  {
  }

  /** The event does not enter an all-or-none order. */
  predicate Harmless(e: Event) {
    e.Ask? ==> e.req.Withdraw? || !e.req.t.cond.AllOrNone?
  }

  /** A session: any events, one after the other, until one faults. The book is then what the
      events make of an opening floor; and only an event that is faulty there cuts it short. */
  method Session(min: nat, incr: nat, events: seq<Event>) returns (o: Book, done: nat)
    requires min > 0 && incr >= 3
    ensures fresh(o) && done <= |events|
    ensures var w := Lived(Opening(incr + 1), min, events[..done]);
      && !w.fault
      && (done == |events| ==> o.Idle() && o.F() == w.f && o.base == w.base)
      && (done < |events| ==> Faulty(w.f, w.base, events[done]))
    ensures (forall e :: e in events ==> Harmless(e)) ==> done == |events|
  {
    hide Book.Idle, Plain.PlainBook, Happened, Faulty;
    o := new Book(min, incr);
    done := 0;
    EmptyPlain(o.book);
    ghost var plain := forall e :: e in events ==> Harmless(e);
    ghost var f := o.F();
    while done < |events|
      invariant done <= |events| && o.Idle() && fresh(o)
      invariant Lived(f, min, events[..done]) == World(o.F(), o.base, false)
      invariant plain ==> Plain.PlainBook(o.book) && !o.needCheck
    {
      assert events[done] in events;
      assert events[..done + 1][..done] == events[..done];
      HappenedFaultsIff(o.F(), o.base, events[done]);
      var ok := Happen(o, events[done]);
      if !ok {
        return;
      }
      done := done + 1;
    }
    assert events[..done] == events;
  }

  /** One event leaves what its function says; not ok: it faults. */
  method Happen(o: Book, e: Event) returns (ok: bool)
    requires o.Idle()
    modifies o
    ensures |old(o.book)| > 1
    ensures var w := Happened(old(o.F()), old(o.base), e);
      (ok <==> !w.fault) && (ok ==> o.Idle() && o.F() == w.f && o.base == w.base)
    ensures old(Plain.PlainBook(o.book) && !o.needCheck) && Harmless(e) ==>
      ok && Plain.PlainBook(o.book) && !o.needCheck
  {
    hide Book.Idle, Plain.PlainBook, Asked, Grown;
    Based(o);
    ok := true;
    match e {
      case Ask(req) => ok := Answer(o, req);
      case Above(max) =>
        GrownPlains(o.book, false);
        o.GrowBookAbove(max);
      case Below(min) =>
        GrownPlains(o.book, true);
        o.GrowBookBelow(min);
    }
  }

  /** One window leaves what its function says. */
  method Answer(o: Book, req: Request) returns (ok: bool)
    requires o.Idle()
    modifies o
    ensures |old(o.book)| > 1
    ensures var w := Asked(old(o.F()), old(o.base), req);
      (ok <==> !w.fault) && (ok ==> o.Idle() && o.F() == w.f && o.base == w.base)
    ensures old(Plain.PlainBook(o.book) && !o.needCheck) && (req.Withdraw? || !req.t.cond.AllOrNone?) ==>
      ok && Plain.PlainBook(o.book) && !o.needCheck
  {
    hide Book.Idle, Plain.PlainBook, Windowed, Acceptable, StopIds, StopCount, Rests, PulledFloor, PullFaults, Located;
    Based(o);
    ghost var f := o.F();
    ghost var n := Bound(f);
    StopsAtMost(o);
    if !req.Enter? {
      Spotted(o, req.id);
    }
    var st, ret := o.Execute(req, n);
    ok := !st.Fault?;
  }

  lemma StopsAtMost(o: Book)
    requires o.Idle()
    ensures |StopIds(o.cache)| < Bound(o.F())
  {
    hide Ok, Covered;
    StopsCounted(o.D());
  }

  /** Pulling by the cache is pulling by the spot of the order. */
  lemma Spotted(o: Book, id: nat)
    requires o.Idle()
    ensures id in o.cache <==> Rests(o.book, id)
    ensures id in o.cache ==>
      Located(o.book, o.cache, id) && Removed(o.F(), id) ==
        if PullFaults(o.book, o.cache, o.ask, id) then Passed(o.F(), 0, true)
        else Passed(PulledFloor(o.F(), o.cache, id), 0, false)
  {
    hide Ok, Covered, PulledFloor, PullFaults;
    CacheSpots(o.D(), id);
    if id in o.cache {
      PulledBySpot(o.F(), o.cache, id);
    }
  }

  lemma GrownPlains(book: seq<Level>, below: bool)
    ensures Plain.PlainBook(book) ==> forall incr: nat :: Plain.PlainBook(Grown(book, incr, below))
  {
    if Plain.PlainBook(book) {
      forall incr: nat ensures Plain.PlainBook(Grown(book, incr, below)) {
        GrownPlain(book, incr, below);
      }
    }
  }
}
