/** Which stops a trade triggers. */
module Stops {
  import opened Ladder
  import opened Desk
  import opened Edges
  import opened Sweep
  import opened Reference

  /** A stop at level p is triggered by a last trade at level last. */
  predicate Due(b: Bundle, p: nat, last: nat) {
    b.Stop? && if b.isBuy then p <= last else p >= last
  }

  /** No stop of the other side lies on the way of either pass. */
  ghost predicate Separated(f: Floor) {
    && (forall p :: 0 <= p < |f.book| && f.lowBuyStop <= p < f.last ==> !HasStop(f.book[p], false))
    && (forall p :: 0 <= p < |f.book| && f.last < p <= f.highSellStop ==> !HasStop(f.book[p], true))
  }

  ghost predicate OnlyStops(book: seq<Level>) {
    forall p, b :: 0 <= p < |book| && b in book[p].stops ==> b.Stop?
  }

  lemma CheckedStops(f: Floor)
    ensures forall p :: 0 <= p < |f.book| ==>
      Checked(f).book[p].stops ==
        if f.lowBuyStop <= p <= f.last || f.last <= p <= f.highSellStop then [] else f.book[p].stops
  {
  }

  /** Stops that are not due stay if and only if the sides are separated: the source triggers whole chains. */
  lemma OnlyDueTriggered(f: Floor)
    requires OnlyStops(f.book)
    ensures (forall p, b :: 0 <= p < |f.book| && b in f.book[p].stops && !Due(b, p, f.last) ==>
      b in Checked(f).book[p].stops)
       <==> Separated(f)
  {
    CheckedStops(f);
    hide Checked;
    var r := Checked(f).book;
    if !Separated(f) {
      var p :| 0 <= p < |f.book| && ((f.lowBuyStop <= p < f.last && HasStop(f.book[p], false))
        || (f.last < p <= f.highSellStop && HasStop(f.book[p], true)));
      assert HasStop(f.book[p], p > f.last);
      var b :| b in f.book[p].stops && b.Stop? && b.isBuy == (p > f.last);
      assert !Due(b, p, f.last) && r[p].stops == [];
    } else {
      forall p, b | 0 <= p < |f.book| && b in f.book[p].stops && !Due(b, p, f.last) ensures b in r[p].stops {
        assert HasStop(f.book[p], b.isBuy);
      }
    }
  }

  /** All stops that are due are triggered if the edges cover the stops, and become queued orders. */
  lemma AllDueTriggered(f: Floor, p: nat, b: Bundle)
    requires StopsWithin(f.book, true, f.lowBuyStop, f.highBuyStop)
      && StopsWithin(f.book, false, f.lowSellStop, f.highSellStop)
    requires p < |f.book| && b in f.book[p].stops && Due(b, p, f.last)
    ensures b !in Checked(f).book[p].stops
  {
    CheckedStops(f);
    hide Checked;
    assert HasStop(f.book[p], b.isBuy);
  }

  /** A check queues the buy levels from the lowest up to the last price, and then what is left from the
      highest sell level down to it; stop i of level p is at its place there, as the order that it becomes. */
  lemma CheckedQueue(f: Floor, p: nat, i: nat)
    requires 0 < f.last < |f.book| && 0 < p < |f.book| && i < |f.book[p].stops| && f.book[p].stops[i].Stop?
    requires f.lowBuyStop <= f.last + 1 && f.highSellStop < |f.book|
    requires f.lowBuyStop <= p <= f.last || f.last <= p <= f.highSellStop
    ensures var up := f.lowBuyStop <= p <= f.last;
      var book := if up then f.book else Swept(f.book, f.lowBuyStop, f.last);
      var k := if up then StopsBelow(f.book, f.lowBuyStop, p) + i
        else StopsBelow(f.book, f.lowBuyStop, f.last + 1) + StopsAbove(book, f.highSellStop, p) + i;
      var b, q := f.book[p].stops[i], Checked(f).queue;
      && |f.queue| + k < |q| && q[..|f.queue|] == f.queue
      && var t := q[|f.queue| + k];
      && t.id == f.lastId + k + 1 && t.isBuy == b.isBuy && t.sz == b.sz && t.cond == Plain
      && if b.limit > 0 then t.otype == LimitOrder && t.limit == b.limit else t.otype == Market
  {
    hide Swept, SweptUp, SweptDown, Tickets, StopsBelow, StopsAbove;
    var up := f.lowBuyStop <= p <= f.last;
    var book := Swept(f.book, f.lowBuyStop, f.last);
    SweptUpAll(f.book, f.lowBuyStop, f.last);
    var k;
    if up {
      SweptUpAt(f.book, f.lowBuyStop, f.last, p, i);
      k := StopsBelow(f.book, f.lowBuyStop, p) + i;
    } else {
      assert book[p].stops == f.book[p].stops;
      SweptDownAt(book, f.highSellStop, f.last, p, i);
      k := StopsBelow(f.book, f.lowBuyStop, f.last + 1) + StopsAbove(book, f.highSellStop, p) + i;
    }
    assert DueStops(f)[k] == f.book[p].stops[i];
    TicketAt(DueStops(f), f.lastId, k);
  }

  /* ---- the stop windows ---- */

  /** Level q is swept by the next check, if the last trade is at last then. */
  predicate SweptBy(f: Floor, q: nat, last: nat) {
    f.lowBuyStop <= q <= last || last <= q <= f.highSellStop
  }

  /** A new stop at p makes those levels swept besides that lie between it and the last price, on the way of
      the pass of its side; no others. */
  lemma RestedSwept(f: Floor, p: nat, b: Bundle, q: nat, last: nat)
    requires 0 < p < |f.book| && b.Stop?
    ensures SweptBy(StopRested(f, p, b), q, last) <==>
      SweptBy(f, q, last) || if b.isBuy then p <= q <= last else last <= q <= p
  {
  }

  /** After a check at last the windows are what they were without the levels the two passes came by: the
      buys above last are left, and the sells below it. */
  lemma CheckedWindows(f: Floor, q: nat)
    requires q < |f.book|
    ensures var g := Checked(f);
      && (g.lowBuyStop <= q <= g.highBuyStop <==> f.lowBuyStop <= q <= f.highBuyStop && q > f.last)
      && (g.lowSellStop <= q <= g.highSellStop <==> f.lowSellStop <= q <= f.highSellStop && q < f.last)
  {
    hide Swept, DueStops, Tickets;
  }

  /** ... and no pass to come sweeps a level outside what they were. */
  lemma CheckedSwept(f: Floor, q: nat, last: nat)
    requires q < |f.book| && 0 < last < |f.book| && Window(|f.book|, f.lowBuyStop, f.highBuyStop)
      && Window(|f.book|, f.lowSellStop, f.highSellStop)
    ensures var g := Checked(f); SweptBy(g, q, last) ==>
      SweptBy(f, q, last) && if last > f.last then f.last < q else if last < f.last then q < f.last else false
  {
    hide Swept, DueStops, Tickets;
  }
}
