/** What a pass over triggered stops takes out of the book and queues. */
module Sweep {
  import opened Ladder
  import opened Desk
  import opened Edges

  /** The book without the stop chains of levels lo to hi. */
  function Swept(book: seq<Level>, lo: nat, hi: nat): (r: seq<Level>)
    ensures |r| == |book|
    ensures forall p :: 0 <= p < |book| ==> r[p] == if lo <= p <= hi then book[p].(stops := []) else book[p]
  {
    seq(|book|, p requires 0 <= p < |book| => if lo <= p <= hi then book[p].(stops := []) else book[p])
  }

  /** The stops of levels lo to hi, lowest level first, oldest first within a level. */
  function SweptUp(book: seq<Level>, lo: nat, hi: nat): seq<Bundle>
    decreases hi + 1 - lo
  {
    if lo > hi || lo >= |book| then [] else book[lo].stops + SweptUp(book, lo + 1, hi)
  }

  /** The stops of levels hi down to lo, highest level first. */
  function SweptDown(book: seq<Level>, hi: nat, lo: nat): seq<Bundle>
    decreases hi
  {
    if hi < lo || hi == 0 || hi >= |book| then [] else book[hi].stops + SweptDown(book, hi - 1, lo)
  }

  /** The queued orders that triggered stops become, under the ids after id. */
  function Tickets(bs: seq<Bundle>, id: nat): (ts: seq<Ticket>)
    ensures |ts| == |bs|
  {
    if bs == [] then [] else [TicketOf(bs[0], id + 1)] + Tickets(bs[1..], id + 1)
  }

  function TicketOf(b: Bundle, id: nat): Ticket {
    match b
    case Resting(_, sz, _) => Ticket(Market, false, 0, 0, sz, Plain, id)
    case Stop(_, sz, isBuy, limit) => Triggered(b, id)
  }

  lemma {:induction false} TicketsConcat(a: seq<Bundle>, b: seq<Bundle>, id: nat)
    ensures Tickets(a + b, id) == Tickets(a, id) + Tickets(b, id + |a|)
  {
    if a == [] {
      assert a + b == b;
    } else {
      assert (a + b)[1..] == a[1..] + b;
      TicketsConcat(a[1..], b, id + 1);
    }
  }

  /** The upward pass has reached level p, having taken out done. */
  ghost predicate UpSoFar(old_: seq<Level>, lo: nat, last: nat, p: nat, book: seq<Level>, done: seq<Bundle>) {
    && 0 < lo <= p && last < |old_| == |book| && (p == lo || p <= last + 1)
    && book == Swept(old_, lo, p - 1)
    && SweptUp(old_, lo, last) == done + SweptUp(old_, p, last)
    && forall q :: 0 <= q < |book| && HasStop(book[q], true) ==> p <= q
  }

  lemma UpStart(book: seq<Level>, lo: nat, last: nat)
    requires 0 < lo && last < |book|
    requires forall q :: 0 <= q < |book| && HasStop(book[q], true) ==> lo <= q
    ensures UpSoFar(book, lo, last, lo, book, [])
  {
    assert Swept(book, lo, lo - 1) == book;
  }

  lemma UpStep(old_: seq<Level>, lo: nat, last: nat, p: nat, book: seq<Level>, done: seq<Bundle>)
    requires UpSoFar(old_, lo, last, p, book, done) && p <= last
    ensures UpSoFar(old_, lo, last, p + 1, book[p := book[p].(stops := [])], done + book[p].stops)
  {
    hide HasStop;
    var book' := book[p := book[p].(stops := [])];
    assert book' == Swept(old_, lo, p);
    assert done + (book[p].stops + SweptUp(old_, p + 1, last)) == done + book[p].stops + SweptUp(old_, p + 1, last);
    NoStop(book, p, true);
  }

  lemma UpEnd(old_: seq<Level>, lo: nat, last: nat, p: nat, book: seq<Level>, done: seq<Bundle>)
    requires UpSoFar(old_, lo, last, p, book, done) && p > last
    ensures book == Swept(old_, lo, last) && done == SweptUp(old_, lo, last)
    ensures forall q :: 0 <= q < |book| && HasStop(book[q], true) ==> q > last
  {
    hide HasStop;
    assert Swept(old_, lo, p - 1) == Swept(old_, lo, last);
    assert done + [] == done;
  }

  /** The downward pass has reached level p, having taken out done. */
  ghost predicate DownSoFar(old_: seq<Level>, hi: nat, last: nat, p: nat, book: seq<Level>, done: seq<Bundle>) {
    && 0 < last && p <= hi < |old_| == |book| && (p == hi || last <= p + 1)
    && book == Swept(old_, p + 1, hi)
    && SweptDown(old_, hi, last) == done + SweptDown(old_, p, last)
    && forall q :: 0 <= q < |book| && HasStop(book[q], false) ==> q <= p
  }

  lemma DownStart(book: seq<Level>, hi: nat, last: nat)
    requires 0 < last && hi < |book|
    requires forall q :: 0 <= q < |book| && HasStop(book[q], false) ==> q <= hi
    ensures DownSoFar(book, hi, last, hi, book, [])
  {
    assert Swept(book, hi + 1, hi) == book;
  }

  lemma DownStep(old_: seq<Level>, hi: nat, last: nat, p: nat, book: seq<Level>, done: seq<Bundle>)
    requires DownSoFar(old_, hi, last, p, book, done) && last <= p
    ensures DownSoFar(old_, hi, last, p - 1, book[p := book[p].(stops := [])], done + book[p].stops)
  {
    hide HasStop;
    var book' := book[p := book[p].(stops := [])];
    assert book' == Swept(old_, p, hi);
    assert done + (book[p].stops + SweptDown(old_, p - 1, last)) == done + book[p].stops + SweptDown(old_, p - 1, last);
    NoStop(book, p, false);
  }

  lemma DownEnd(old_: seq<Level>, hi: nat, last: nat, p: nat, book: seq<Level>, done: seq<Bundle>)
    requires DownSoFar(old_, hi, last, p, book, done) && p < last
    ensures book == Swept(old_, last, hi) && done == SweptDown(old_, hi, last)
    ensures forall q :: 0 <= q < |book| && HasStop(book[q], false) ==> q < last
    ensures forall q :: 0 <= q < |book| && HasStop(book[q], true) ==> HasStop(old_[q], true)
  {
    assert Swept(old_, p + 1, hi) == Swept(old_, last, hi);
    assert done + [] == done;
  }

  lemma NoStop(book: seq<Level>, p: nat, buys: bool)
    requires p < |book|
    ensures forall q :: 0 <= q < |book| ==>
      HasStop(book[p := book[p].(stops := [])][q], buys) ==> q != p && HasStop(book[q], buys)
  {
  }

  /** What the stops done have put on the queue. */
  ghost predicate QueuedSoFar(queue0: seq<Ticket>, id0: nat, done: seq<Bundle>, queue: seq<Ticket>, id: nat) {
    queue == queue0 + Tickets(done, id0) && id == id0 + |done|
  }

  lemma QueueStart(queue: seq<Ticket>, id: nat)
    ensures QueuedSoFar(queue, id, [], queue, id)
  {
  }

  lemma QueueStep(queue0: seq<Ticket>, id0: nat, done: seq<Bundle>, queue: seq<Ticket>, id: nat, more: seq<Bundle>)
    requires QueuedSoFar(queue0, id0, done, queue, id)
    ensures QueuedSoFar(queue0, id0, done + more, queue + Tickets(more, id), id + |more|)
  {
    hide Tickets;
    TicketsConcat(done, more, id0);
    assert queue0 + Tickets(done, id0) + Tickets(more, id) == queue0 + (Tickets(done, id0) + Tickets(more, id));
  }

  /* ---- what is taken out, stop by stop ---- */

  /** Every stop taken becomes one order, under the next id: of its side and size, a limit order at its
      limit if it has one and a market order if it has not. */
  lemma {:induction false} TicketAt(bs: seq<Bundle>, id: nat, k: nat)
    requires k < |bs| && bs[k].Stop?
    ensures var t := Tickets(bs, id)[k];
      && t.id == id + k + 1 && t.isBuy == bs[k].isBuy && t.sz == bs[k].sz && t.cond == Plain
      && if bs[k].limit > 0 then t.otype == LimitOrder && t.limit == bs[k].limit else t.otype == Market
  {
    if k > 0 {
      TicketAt(bs[1..], id + 1, k - 1);
    }
  }

  /** How many stops there are from level lo up to level p, not counting that. */
  function StopsBelow(book: seq<Level>, lo: nat, p: nat): nat
    requires lo <= p <= |book|
    decreases p - lo
  {
    if lo == p then 0 else |book[lo].stops| + StopsBelow(book, lo + 1, p)
  }

  /** How many there are from level hi down to level p, not counting that. */
  function StopsAbove(book: seq<Level>, hi: nat, p: nat): nat
    requires p <= hi < |book|
    decreases hi
  {
    if hi == p then 0 else |book[hi].stops| + StopsAbove(book, hi - 1, p)
  }

  /** On the way up stop i of level p comes after all those of lower levels and those before it. */
  lemma {:induction false} SweptUpAt(book: seq<Level>, lo: nat, hi: nat, p: nat, i: nat)
    requires lo <= p <= hi && p < |book| && i < |book[p].stops|
    ensures var k := StopsBelow(book, lo, p) + i;
      k < |SweptUp(book, lo, hi)| && SweptUp(book, lo, hi)[k] == book[p].stops[i]
    decreases p - lo
  {
    if lo < p {
      SweptUpAt(book, lo + 1, hi, p, i);
    }
  }

  /** On the way down it comes after all those of higher levels. */
  lemma {:induction false} SweptDownAt(book: seq<Level>, hi: nat, lo: nat, p: nat, i: nat)
    requires 0 < p && lo <= p <= hi < |book| && i < |book[p].stops|
    ensures var k := StopsAbove(book, hi, p) + i;
      k < |SweptDown(book, hi, lo)| && SweptDown(book, hi, lo)[k] == book[p].stops[i]
    decreases hi
  {
    if p < hi {
      SweptDownAt(book, hi - 1, lo, p, i);
    }
  }

  /** The levels swept have all the stops there are in what was taken out. */
  lemma {:induction false} SweptUpAll(book: seq<Level>, lo: nat, hi: nat)
    requires lo <= hi + 1 <= |book|
    ensures |SweptUp(book, lo, hi)| == StopsBelow(book, lo, hi + 1)
    decreases hi + 1 - lo
  {
    if lo <= hi {
      SweptUpAll(book, lo + 1, hi);
    }
  }
}
