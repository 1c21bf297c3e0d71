/** Time priority: whoever comes to rest goes last among the orders of its side at its level. */
module Arrivals {
  import opened Ladder
  import opened Priority
  import opened Edges
  import opened Reference

  lemma {:induction false} IdsPush(c: seq<Bundle>, b: Bundle)
    ensures Ids(c + [b]) == Ids(c) + [b.id]
  {
    var r := Ids(c + [b]);
    forall i | 0 <= i < |r| ensures r[i] == (Ids(c) + [b.id])[i] {
      assert r[i] == (c + [b])[i].id;
    }
  }

  /** The ids of a side at level p, in order of priority. */
  function Waiting(f: Floor, isBuy: bool, p: nat): seq<nat>
    requires p < |f.book|
  {
    LevelQueue(f.book[p], isBuy, OnSide(isBuy, p, InsideLevel(f, isBuy)))
  }

  /** A level of which only the AON chain of a side has got one order more. */
  lemma AonLast(l: Level, r: Level, isBuy: bool, b: Bundle, before: bool, after: bool)
    requires r.limits == l.limits && Chain(r, AonKind(isBuy)) == Chain(l, AonKind(isBuy)) + [b]
    requires (before || after) ==> l.limits == []
    ensures LevelQueue(r, isBuy, after) == LevelQueue(l, isBuy, before) + [b.id]
  {
    IdsPush(Chain(l, AonKind(isBuy)), b);
  }

  /** A level of which only the limit chain has, on the side of that chain. */
  lemma LimitLast(l: Level, r: Level, isBuy: bool, b: Bundle, before: bool)
    requires r.limits == l.limits + [b] && Chain(r, AonKind(isBuy)) == Chain(l, AonKind(isBuy))
    requires !before ==> l.limits == []
    ensures LevelQueue(r, isBuy, true) == LevelQueue(l, isBuy, before) + [b.id]
  {
    IdsPush(l.limits, b);
    assert l.limits == [] ==> Ids(l.limits) == [];
  }

  /** What is left of a new order rests behind all orders of its side at its level, whichever chain it
      goes to. */
  lemma RestsLast(f: Floor, isBuy: bool, p: nat, id: nat, sz: nat, aon: bool)
    requires 0 < p < |f.book| && Gap(f.book, f.bid, f.ask)
    requires !aon ==> !OnSide(!isBuy, p, InsideLevel(f, !isBuy))
    ensures Waiting(Rested(f, isBuy, p, id, sz, aon), isBuy, p) == Waiting(f, isBuy, p) + [id]
  {
    hide LevelQueue;
    var b := Resting(id, sz, aon);
    var l := f.book[p];
    var r := Rested(f, isBuy, p, id, sz, aon);
    var before := OnSide(isBuy, p, InsideLevel(f, isBuy));
    if RestKind(f, isBuy, p, aon) == Limits {
      LimitLast(l, r.book[p], isBuy, b, before);
    } else {
      AonLast(l, r.book[p], isBuy, b, before, before);
    }
  }
}
