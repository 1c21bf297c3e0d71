/** What a window does to linked orders, as a function of what there was, of what is asked for and
    of what the engine answers; and that nothing of a position is lost on the way. */
module Windows {
  import opened Linked
  import opened Routing
  import opened Contingent
  import opened Legs

  /** What a step leaves, and whether it throws. */
  datatype Turn = Turn(s: State, thrown: bool)

  /** The oldest queued order enters. */
  function Turned(s: State, call: Call): Turn
    requires s.queue != []
  {
    match s.queue[0]
    case Basic(id, terms) =>
      var i := Injected(Popped(s), id, terms, call);
      Turn(i.s, i.thrown)
    case Exits(id, entry, sz) => Turn(ExitsEntered(Popped(s), id, entry, sz, call), false)
  }

  /** An exception drops all that is queued. */
  function Cleared(s: State): State
    decreases |s.queue|
  {
    if s.queue == [] then s else Cleared(Dropped(s))
  }

  /** Queued orders enter, the oldest first, until there are none, one throws, or n have entered;
      the engine is asked from its answer k on. */
  function Drained(s: State, engine: nat -> Call, k: nat, n: nat): Turn
    decreases n
  {
    if s.queue == [] || n == 0 then Turn(s, false)
    else
      var r := Turned(s, engine(k));
      if r.thrown then Turn(Cleared(r.s), true) else Drained(r.s, engine, k + 1, n - 1)
  }

  /** The orders of a request. */
  datatype Request =
    | Basics(terms: Terms)
    | OneCancels(first: Terms, second: Terms, full: bool)
    | OneTriggers(leg: Terms, next: Terms, full: bool)
    | Bracket(sz: nat)

  /** What a window is asked for: new orders, new orders in place of a resting one, or a pull. */
  datatype Ask = Enter(r: Request) | InPlaceOf(id: nat, r: Request) | Pull(id: nat)

  /** The orders of a request enter. */
  function Requested(s: State, r: Request, engine: nat -> Call): Turn {
    match r
    case Basics(terms) =>
      var i := Injected(NewId(s), s.lastId + 1, terms, engine(0));
      Turn(i.s, i.thrown)
    case OneCancels(first, second, full) =>
      var e := OcoEntered(s, first, second, full, engine(0), engine(1));
      Turn(e.s, e.thrown)
    case OneTriggers(leg, next, full) =>
      var e := OtoEntered(s, leg, next, full, engine(0));
      Turn(e.s, e.thrown)
    case Bracket(sz) => Turn(EntryEntered(s, sz, engine(0)).s, false)
  }

  /** ... and then all they give rise to, unless one throws. */
  function Settled(t: Turn, engine: nat -> Call): Turn {
    if t.thrown then Turn(Cleared(t.s), true) else Drained(t.s, engine, 2, Potential(t.s))
  }

  /** A whole window. */
  function Windowed(s: State, a: Ask, engine: nat -> Call): Turn {
    match a
    case Enter(r) => Settled(Requested(s, r, engine), engine)
    case InPlaceOf(id, r) =>
      if id in s.orders then Settled(Requested(Withdrawn(s, id), r, engine), engine) else Turn(s, false)
    case Pull(id) => Turn(if id in s.orders then Withdrawn(s, id) else s, false)
  }

  predicate Sound(r: Request) {
    match r
    case Basics(terms) => terms.sz > 0
    case OneCancels(first, second, _) =>
      first.sz > 0 && second.sz > 0 && !first.kind.Market? && !second.kind.Market?
    case OneTriggers(leg, next, _) => leg.sz > 0 && next.sz > 0
    case Bracket(sz) => sz > 0
  }

  /** What holds between windows. */
  ghost predicate Idle(s: State) {
    Inv(s, 0, 0) && Legged(s) && s.queue == []
  }

  /* ---- nothing is cancelled ---- */

  /** From s to s' no exit was cancelled, and no pair is forgotten or goes to another entry. */
  ghost predicate Uncancelled(s: State, s': State) {
    && s.exits.Keys <= s'.exits.Keys
    && (forall t :: t in s.exits ==> s'.exits[t].entry == s.exits[t].entry)
    && forall t :: t in s'.exits ==> s'.exits[t].cancelled == if t in s.exits then s.exits[t].cancelled else 0
  }

  /** Only entries are filled by trades noted as theirs. */
  ghost predicate Entries(s: State) {
    forall e :: e in s.fills ==> e <= s.lastId && (e in s.orders ==> s.orders[e].cond.Entry?)
  }

  /** What an entry traded and what of it still rests. */
  function Worked(s: State, e: nat): nat
    requires e in s.fills
  {
    s.fills[e] + if e in s.orders then s.orders[e].sz else 0
  }

  /** No entry loses or gains size but by trading. */
  ghost predicate Balanced(s: State, s': State) {
    forall e :: e in s.fills ==> e in s'.fills && Worked(s', e) == Worked(s, e)
  }

  ghost predicate Kept(s: State, s': State) {
    Uncancelled(s, s') && (Entries(s) ==> Entries(s') && Balanced(s, s'))
  }

  lemma KeptTrans(s: State, s': State, s'': State)
    requires Kept(s, s') && Kept(s', s'')
    ensures Kept(s, s'')
  {
  }

  /** Where entries stay as they are and no pair is touched, all is kept. */
  lemma KeptSame(s: State, s': State)
    requires s'.exits == s.exits && s'.fills == s.fills && s.lastId <= s'.lastId
    requires Entries(s) ==> forall e :: e in s.fills ==>
      && (e in s.orders <==> e in s'.orders)
      && (e in s.orders ==> s'.orders[e].sz == s.orders[e].sz && s'.orders[e].cond.Entry?)
    ensures Kept(s, s')
  {
  }

  lemma KeptSelf(s: State)
    ensures Kept(s, s)
  {
  }

  lemma EntryHitKept(s: State, id: nat, amount: nat, w: nat, left: nat)
    requires Inv(s, w, left) && CanHit(s, id, amount) && s.orders[id].cond.Entry?
    ensures Kept(s, Dealt(s, id, amount))
  {
    EntryFacts(s, id, w, left);
    PairIds(s, w, left);
    var l, t := s.orders[id].cond.loss, s.orders[id].cond.target;
    hide Inv, Kept, Dealt, NotQueued;
    if t != 0 && l in s.orders && t in s.orders && t in s.exits {
      PairedFacts(s, l, t, w, left);
      GrownKept(s, id, amount, l, t);
    } else {
      NewPairKept(s, id, amount);
    }
  }

  lemma GrownKept(s: State, id: nat, amount: nat, l: nat, t: nat)
    requires CanHit(s, id, amount) && s.orders[id].cond == Entry(l, t) && id in s.fills
    requires t != 0 && l in s.orders && t in s.orders && t in s.exits && l != id && t != id
    requires s.orders[l].cond.Exit? && s.orders[t].cond.Exit?
    ensures Kept(s, Dealt(s, id, amount))
  {
    var s' := PairGrown(Traded(s, id, amount), id, l, t, amount);
    var r := s'.(orders := Shrunk(s'.orders, id, amount));
    assert Dealt(s, id, amount) == r;
    hide Dealt;
    assert Uncancelled(s, r);
    hide Uncancelled;
    if Entries(s) {
      forall e | e in s.fills ensures e in r.fills && Worked(r, e) == Worked(s, e) {
        assert e in s.orders ==> e != l && e != t;
      }
    }
  }

  lemma NewPairKept(s: State, id: nat, amount: nat)
    requires CanHit(s, id, amount) && s.orders[id].cond.Entry? && id in s.fills
    requires var l, t := s.orders[id].cond.loss, s.orders[id].cond.target;
      !(t != 0 && l in s.orders && t in s.orders && t in s.exits)
    requires forall t :: t in s.exits ==> t <= s.lastId
    ensures Kept(s, Dealt(s, id, amount))
  {
    var s' := OpenNew(Traded(s, id, amount), id, amount);
    var r := s'.(orders := Shrunk(s'.orders, id, amount));
    assert Dealt(s, id, amount) == r;
    hide Dealt;
    assert Uncancelled(s, r);
    hide Uncancelled;
  }

  lemma OtherHitKept(s: State, id: nat, amount: nat)
    requires Symmetric(s.orders) && CanHit(s, id, amount) && !s.orders[id].cond.Entry?
    ensures Kept(s, Dealt(s, id, amount))
  {
    var s' := Handled(Touch(s, id), id, amount);
    HandledKept(s, id, amount);
    hide Handled, Symmetric;
    if id in s'.orders && amount <= s'.orders[id].sz {
      LessKept(s, s', id, amount);
    }
  }

  lemma HandledKept(s: State, id: nat, amount: nat)
    requires Symmetric(s.orders) && CanHit(s, id, amount) && !s.orders[id].cond.Entry?
    ensures var s' := Handled(Touch(s, id), id, amount); Kept(s, s') && (Entries(s) ==> id !in s'.fills)
  {
    var s' := Handled(Touch(s, id), id, amount);
    assert Uncancelled(s, s') by {
      hide Symmetric;
    }
    hide Uncancelled;
  }

  lemma LessKept(s: State, s': State, id: nat, amount: nat)
    requires Kept(s, s') && id in s'.orders && amount <= s'.orders[id].sz && (Entries(s) ==> id !in s'.fills)
    ensures Kept(s, s'.(orders := Shrunk(s'.orders, id, amount)))
  {
  }

  lemma HitKept(s: State, id: nat, amount: nat, w: nat, left: nat)
    requires Inv(s, w, left) && CanHit(s, id, amount)
    ensures Kept(s, Hit(s, id, amount))
  {
    hide Dealt, Kept;
    if s.orders[id].cond.Entry? {
      EntryHitKept(s, id, amount, w, left);
    } else {
      hide Exclusive, Booked, Active, Positioned, Numbered;
      OtherHitKept(s, id, amount);
    }
    DoneKept(s, Dealt(s, id, amount), id, amount == s.orders[id].sz);
  }

  lemma DoneKept(s: State, s': State, id: nat, over: bool)
    requires Kept(s, s')
    ensures Kept(s, Finished(s', id, over))
  {
  }

  lemma SprungKept(s: State, id: nat, market: bool)
    requires Symmetric(s.orders) && CanTrigger(s, id)
    ensures Kept(s, Sprung(s, id, market))
  {
  }

  lemma TriggeredKept(s: State, id: nat, market: bool, w: nat, left: nat)
    requires Inv(s, w, left) && CanTrigger(s, id)
    ensures Kept(s, Triggered(s, id, market))
  {
    hide Sprung, Kept, Exclusive, Booked, Active, Positioned, Numbered;
    SprungKept(s, id, market);
    DoneKept(s, Sprung(s, id, market), id, true);
  }

  lemma PairIds(s: State, w: nat, left: nat)
    requires Inv(s, w, left)
    ensures forall t :: t in s.exits ==> t <= s.lastId
  {
    hide Symmetric, Exclusive, Booked, Active, Positioned;
  }

  lemma {:induction false} HitsKept(s: State, left: nat, hits: seq<(nat, nat)>, w: nat, rest: nat)
    requires Inv(s, w, rest)
    ensures Kept(s, RoutedHits(s, left, hits).0)
    decreases |hits|
  {
    hide Inv, Hit, Kept, CanHit;
    if hits == [] {
      KeptSelf(s);
    } else if CanHit(s, hits[0].0, hits[0].1) && hits[0].1 <= left {
      var s' := Hit(s, hits[0].0, hits[0].1);
      HitKept(s, hits[0].0, hits[0].1, w, rest);
      HitOk(s, hits[0].0, hits[0].1, w, rest);
      HitsKept(s', left - hits[0].1, hits[1..], w, rest);
      KeptTrans(s, s', RoutedHits(s', left - hits[0].1, hits[1..]).0);
    } else {
      HitsKept(s, left, hits[1..], w, rest);
    }
  }

  lemma {:induction false} TriggersKept(s: State, ts: seq<(nat, bool)>, w: nat, left: nat)
    requires Inv(s, w, left)
    ensures Kept(s, RoutedTriggers(s, ts))
    decreases |ts|
  {
    hide Inv, Triggered, Kept, CanTrigger;
    if ts == [] {
      KeptSelf(s);
    } else if CanTrigger(s, ts[0].0) {
      var s' := Triggered(s, ts[0].0, ts[0].1);
      TriggeredKept(s, ts[0].0, ts[0].1, w, left);
      TriggeredOk(s, ts[0].0, ts[0].1, w, left);
      TriggersKept(s', ts[1..], w, left);
      KeptTrans(s, s', RoutedTriggers(s', ts[1..]));
    } else {
      TriggersKept(s, ts[1..], w, left);
    }
  }

  lemma RoutedKept(s: State, sz: nat, call: Call, w: nat, left: nat)
    requires Inv(s, w, left)
    ensures Kept(s, Routed(s, sz, call).0)
  {
    hide Inv, Kept;
    var h := RoutedHits(s, sz, call.hits);
    HitsKept(s, sz, call.hits, w, left);
    RoutedHitsOk(s, sz, call.hits, w, left);
    TriggersKept(h.0, call.triggers, w, left);
    KeptTrans(s, h.0, RoutedTriggers(h.0, call.triggers));
  }

  lemma NewIdKept(s: State)
    ensures Kept(s, NewId(s))
  {
  }

  lemma RestKept(s: State, id: nat, o: Order)
    requires id !in s.fills
    ensures Kept(s, Rest(s, id, o))
  {
  }

  lemma TakerKept(s: State, id: nat, over: bool)
    ensures Kept(s, Finished(Touch(s, id), id, over)) && Finished(Touch(s, id), id, over).fills == s.fills
  {
  }

  lemma InjectedKept(s: State, id: nat, terms: Terms, call: Call)
    requires Inv(s, 0, 0) && Fresh(s, id)
    ensures Kept(s, Injected(s, id, terms, call).s)
  {
    hide Inv, Kept, Routed, Finished, Touch, Onward;
    if terms.kind.Stop? {
      RestKept(s, id, Order(true, terms.sz, Free));
    } else {
      var r := Routed(s, terms.sz, call);
      RoutedKept(s, terms.sz, call, 0, 0);
      RoutedOk(s, terms.sz, call, 0, 0);
      FreshOnward(s, r.0, id);
      TakerKept(r.0, id, r.1 == terms.sz);
      var s1 := Taken(s, id, terms.sz, call).0;
      if r.1 > 0 {
        KeptTrans(s, r.0, s1);
      }
      if r.1 < terms.sz {
        RestKept(s1, id, Order(false, terms.sz - r.1, Free));
        KeptTrans(s, s1, Rest(s1, id, Order(false, terms.sz - r.1, Free)));
      }
    }
  }

  lemma TargetKept(s: State, t: nat, filled: nat)
    ensures Kept(s, TargetTaken(s, t, filled))
  {
  }

  lemma PairKept(s: State, t: nat, e: nat, sz: nat)
    requires t !in s.fills && (e in s.orders ==> s.orders[e].cond.Entry?)
    ensures Kept(s, PairRests(s, t, e, sz))
  {
  }

  lemma ExitsKept(s: State, t: nat, e: nat, sz: nat, call: Call)
    requires Inv(s, t, sz) && sz > 0 && 0 < t <= s.lastId && t in s.exits && s.exits[t].entry == e && NotQueued(s, t)
      && Unpaired(s, t) && t !in s.fills
    ensures Kept(s, ExitsEntered(s, t, e, sz, call))
  {
    hide Inv, Kept, Routed, TargetTaken, PairRests, Onward, NotQueued, Unpaired, Potential;
    var r := Routed(s, sz, call);
    WorkFacts(s, t, sz);
    RoutedKept(s, sz, call, t, sz);
    RoutedOk(s, sz, call, t, sz);
    OnwardExit(s, r.0, t);
    EntryStill(r.0, t, e, sz);
    TargetKept(r.0, t, r.1);
    var s1 := TargetTaken(r.0, t, r.1);
    KeptTrans(s, r.0, s1);
    if r.1 < sz {
      TakenSame(r.0, t, r.1);
      PairKept(s1, t, e, sz - r.1);
      KeptTrans(s, s1, PairRests(s1, t, e, sz - r.1));
    }
  }

  lemma TakenSame(s: State, t: nat, filled: nat)
    ensures TargetTaken(s, t, filled).orders == s.orders && TargetTaken(s, t, filled).fills == s.fills
  {
  }

  lemma LinkedKept(s: State, a: nat, b: nat, full: bool)
    requires (a in s.orders ==> s.orders[a].cond.Free?) && (b in s.orders ==> s.orders[b].cond.Free?)
    ensures a in s.orders && b in s.orders ==> Kept(s, LinkedUp(s, a, b, full))
    ensures Kept(s, OcoClosed(s, a, b, full))
  {
  }

  lemma OcoKept(s: State, first: Terms, second: Terms, full: bool, c1: Call, c2: Call)
    requires Inv(s, 0, 0) && first.sz > 0 && second.sz > 0 && !first.kind.Market? && !second.kind.Market?
    ensures Kept(s, OcoEntered(s, first, second, full, c1, c2).s)
  {
    hide Inv, Injected, Kept, Potential, After, Fresh, LinkedUp, OcoClosed;
    var id1 := s.lastId + 1;
    var i1 := Injected(NewId(s), id1, first, c1);
    NewIdOk(s, 0, 0);
    NewIdKept(s);
    InjectedOk(NewId(s), id1, first, c1);
    InjectedKept(NewId(s), id1, first, c1);
    KeptTrans(s, NewId(s), i1.s);
    AfterFacts(NewId(s), i1.s, id1);
    if !Immediate(i1.filled, first.sz, full) {
      var id2 := i1.s.lastId + 1;
      var i2 := Injected(NewId(i1.s), id2, second, c2);
      NewIdOk(i1.s, 0, 0);
      NewIdKept(i1.s);
      InjectedOk(NewId(i1.s), id2, second, c2);
      InjectedKept(NewId(i1.s), id2, second, c2);
      KeptTrans(i1.s, NewId(i1.s), i2.s);
      KeptTrans(s, i1.s, i2.s);
      FirstKept(s, i1.s, i2.s, id1, id2);
      LinkedKept(i2.s, id1, id2, full);
      var s' := OcoEntered(s, first, second, full, c1, c2).s;
      if s' != i2.s {
        KeptTrans(s, i2.s, s');
      }
    }
  }

  lemma LegKept(s: State, id: nat, next: Terms, full: bool)
    requires id in s.orders ==> s.orders[id].cond.Free?
    ensures var s1 := s.(legs := s.legs[id := full]);
      && Kept(s, Push(s1.(fired := s1.fired + [id]), next))
      && (id in s.orders ==> Kept(s, Conditioned(s1, id, next, full)))
  {
  }

  lemma OtoKept(s: State, leg: Terms, next: Terms, full: bool, c: Call)
    requires Inv(s, 0, 0) && leg.sz > 0
    ensures Kept(s, OtoEntered(s, leg, next, full, c).s)
  {
    hide Inv, Injected, Potential, Kept, After, Fresh, Push, Conditioned;
    var id := s.lastId + 1;
    var i := Injected(NewId(s), id, leg, c);
    NewIdOk(s, 0, 0);
    NewIdKept(s);
    InjectedOk(NewId(s), id, leg, c);
    InjectedKept(NewId(s), id, leg, c);
    KeptTrans(s, NewId(s), i.s);
    if !i.thrown {
      LegKept(i.s, id, next, full);
      KeptTrans(s, i.s, OtoEntered(s, leg, next, full, c).s);
    }
  }

  lemma OpenedKept(s: State, id: nat, filled: nat)
    requires id !in s.fills && id !in s.orders && id <= s.lastId && forall t :: t in s.exits ==> t <= s.lastId
    ensures var s' := EntryOpened(s, id, filled);
      Kept(s, s') && s'.orders == s.orders && id <= s'.lastId
      && (if filled > 0 then id in s'.fills && s'.fills[id] == filled else id !in s'.fills)
  {
  }

  lemma EntryRestsKept(s: State, id: nat, sz: nat)
    requires id !in s.orders && id <= s.lastId
    ensures var s' := EntryRests(s, id, sz);
      && Kept(s, s'.(orders := s.orders)) && id in s'.fills
      && (Entries(s) ==>
        Entries(s') && forall e :: e in s.fills && e != id ==> e in s'.fills && Worked(s', e) == Worked(s, e))
      && Worked(s', id) == sz + if id in s.fills then s.fills[id] else 0
  {
  }

  /** An entry that is accepted has all its size traded or resting. */
  lemma EntryKept(s: State, sz: nat, c: Call)
    requires Inv(s, 0, 0) && sz > 0
    ensures var r := EntryEntered(s, sz, c);
      Kept(s, r.s) && r.id in r.s.fills && Worked(r.s, r.id) == sz
  {
    hide Inv, Routed, Potential, Onward, EntryOpened, EntryRests, Kept;
    var id := s.lastId + 1;
    NewIdOk(s, 0, 0);
    NewIdKept(s);
    var r := Routed(NewId(s), sz, c);
    RoutedKept(NewId(s), sz, c, 0, 0);
    RoutedOk(NewId(s), sz, c, 0, 0);
    FreshOnward(NewId(s), r.0, id);
    PairIds(r.0, 0, 0);
    KeptTrans(s, NewId(s), r.0);
    var s1 := EntryOpened(r.0, id, r.1);
    OpenedKept(r.0, id, r.1);
    KeptTrans(s, r.0, s1);
    if r.1 < sz {
      EntryRestsKept(s1, id, sz - r.1);
      FreshEntry(s, s1, EntryRests(s1, id, sz - r.1), id);
    }
  }

  lemma FreshEntry(s: State, s1: State, s': State, id: nat)
    requires Kept(s, s1) && Kept(s1, s'.(orders := s1.orders)) && id > s.lastId
    requires Entries(s1) ==>
      Entries(s') && forall e :: e in s1.fills && e != id ==> e in s'.fills && Worked(s', e) == Worked(s1, e)
    ensures Kept(s, s')
  {
  }

  /* ---- the queue ---- */

  lemma KeptPopped(s: State)
    requires s.queue != []
    ensures Kept(s, Popped(s))
  {
  }

  /** Each queued order that enters keeps what holds, and uses up some of what was to come. */
  lemma TurnedOk(s: State, call: Call)
    requires Inv(s, 0, 0) && Legged(s) && s.queue != []
    ensures var r := Turned(s, call);
      Inv(r.s, 0, 0) && Legged(r.s) && Potential(r.s) < Potential(s) && Kept(s, r.s)
  {
    hide Inv, Potential, Injected, ExitsEntered, Fresh, Unpaired, NotQueued, Legged, Kept;
    PoppedOk(s);
    PoppedLegged(s);
    KeptPopped(s);
    match s.queue[0] {
      case Basic(id, terms) =>
        InjectedOk(Popped(s), id, terms, call);
        InjectedLegged(Popped(s), id, terms, call);
        InjectedKept(Popped(s), id, terms, call);
      case Exits(id, entry, sz) =>
        ExitsEnteredOk(Popped(s), id, entry, sz, call);
        ExitsLegged(Popped(s), id, entry, sz, call);
        ExitsKept(Popped(s), id, entry, sz, call);
    }
    KeptTrans(s, Popped(s), Turned(s, call).s);
  }

  lemma {:induction false} ClearedOk(s: State)
    requires Inv(s, 0, 0) && Legged(s)
    ensures Idle(Cleared(s))
    decreases |s.queue|
  {
    hide Inv, Legged, Dropped;
    if s.queue != [] {
      DroppedOk(s);
      DroppedLegged(s);
      assert |Dropped(s).queue| < |s.queue| by {
        DroppedLess(s);
      }
      ClearedOk(Dropped(s));
    }
  }

  lemma DroppedLess(s: State)
    requires s.queue != []
    ensures Dropped(s).queue == s.queue[1..]
  {
  }

  lemma NoPotential(s: State)
    requires Potential(s) == 0
    ensures s.queue == []
  {
  }

  /** However much of the queue there may be, all of it enters unless one order throws; and then
      nothing was cancelled. */
  lemma {:induction false} DrainedOk(s: State, engine: nat -> Call, k: nat, n: nat)
    requires Inv(s, 0, 0) && Legged(s) && n >= Potential(s)
    ensures var r := Drained(s, engine, k, n); Idle(r.s) && (!r.thrown ==> Kept(s, r.s))
    decreases n
  {
    hide Inv, Legged, Kept, Potential, Turned;
    if s.queue == [] {
      KeptSelf(s);
    } else if n == 0 {
      NoPotential(s);
    } else {
      TurnedOk(s, engine(k));
      var r := Turned(s, engine(k));
      if r.thrown {
        ClearedOk(r.s);
      } else {
        DrainedOk(r.s, engine, k + 1, n - 1);
        if !Drained(r.s, engine, k + 1, n - 1).thrown {
          KeptTrans(s, r.s, Drained(r.s, engine, k + 1, n - 1).s);
        }
      }
    }
  }

  /** What of a pair rests. */
  function Resting(s: State, t: nat): nat {
    if t in s.orders && s.orders[t].cond.Exit? && !s.orders[t].stop then s.orders[t].sz else 0
  }

  /** Every queued pair of exits comes to its order: without an exception all of what it was opened
      for rests as a linked pair, was filled by the target or triggered as a loss, but for what had
      been cancelled before. */
  lemma ExitsCome(s: State, engine: nat -> Call, k: nat, i: nat)
    requires Inv(s, 0, 0) && Legged(s) && i < |s.queue| && s.queue[i].Exits?
    ensures var t := s.queue[i].id;
      var r := Drained(s, engine, k, Potential(s));
      t in s.exits && (!r.thrown ==>
        && t in r.s.exits && r.s.exits[t].entry == s.exits[t].entry
        && r.s.exits[t].size == Resting(r.s, t) + r.s.exits[t].filled + r.s.exits[t].lost + s.exits[t].cancelled)
  {
    var t := s.queue[i].id;
    assert t in s.exits by {
      hide Symmetric, Exclusive, Active, Positioned, Numbered;
    }
    var r := Drained(s, engine, k, Potential(s));
    DrainedOk(s, engine, k, Potential(s));
    if !r.thrown {
      hide Legged, Drained, Potential, Symmetric, Exclusive, Active, Positioned, Numbered;
      assert Waiting(r.s.queue, t) == 0;
      assert Booked(r.s, 0, 0);
    }
  }

  /** The bound makes no difference if it is large enough. */
  lemma {:induction false} DrainedSame(s: State, engine: nat -> Call, k: nat, n: nat, n': nat)
    requires Inv(s, 0, 0) && Legged(s) && n >= Potential(s) && n' >= Potential(s)
    ensures Drained(s, engine, k, n) == Drained(s, engine, k, n')
    decreases n
  {
    hide Inv, Legged, Kept, Potential, Turned;
    if s.queue != [] {
      if n == 0 || n' == 0 {
        NoPotential(s);
      }
      TurnedOk(s, engine(k));
      var r := Turned(s, engine(k));
      if !r.thrown {
        DrainedSame(r.s, engine, k + 1, n - 1, n' - 1);
      }
    }
  }

  /* ---- windows ---- */

  lemma RequestedOk(s: State, r: Request, engine: nat -> Call)
    requires Inv(s, 0, 0) && Legged(s) && Sound(r)
    ensures var t := Requested(s, r, engine); Inv(t.s, 0, 0) && Legged(t.s) && Kept(s, t.s)
  {
    hide Inv, Legged, Kept, Potential, Injected, Fresh, OcoEntered, OtoEntered, EntryEntered, Spoils, After;
    match r {
      case Basics(terms) =>
        NewIdOk(s, 0, 0);
        NewIdLegged(s);
        NewIdIs(s);
        InjectedOk(NewId(s), s.lastId + 1, terms, engine(0));
        InjectedLegged(NewId(s), s.lastId + 1, terms, engine(0));
        InjectedKept(NewId(s), s.lastId + 1, terms, engine(0));
        NewIdKept(s);
        KeptTrans(s, NewId(s), Requested(s, r, engine).s);
      case OneCancels(first, second, full) =>
        OcoEnteredOk(s, first, second, full, engine(0), engine(1));
        OcoLegged(s, first, second, full, engine(0), engine(1));
        OcoKept(s, first, second, full, engine(0), engine(1));
      case OneTriggers(leg, next, full) =>
        OtoEnteredOk(s, leg, next, full, engine(0));
        OtoLegged(s, leg, next, full, engine(0));
        OtoKept(s, leg, next, full, engine(0));
      case Bracket(sz) =>
        EntryEnteredOk(s, sz, engine(0));
        EntryLegged(s, sz, engine(0));
        EntryKept(s, sz, engine(0));
    }
  }

  lemma SettledOk(s: State, r: Request, engine: nat -> Call)
    requires Inv(s, 0, 0) && Legged(s) && Sound(r)
    ensures var w := Settled(Requested(s, r, engine), engine); Idle(w.s) && (!w.thrown ==> Kept(s, w.s))
  {
    hide Inv, Legged, Kept, Potential, Requested, Drained;
    RequestedOk(s, r, engine);
    var t := Requested(s, r, engine);
    if t.thrown {
      ClearedOk(t.s);
    } else {
      DrainedOk(t.s, engine, 2, Potential(t.s));
      if !Drained(t.s, engine, 2, Potential(t.s)).thrown {
        KeptTrans(s, t.s, Drained(t.s, engine, 2, Potential(t.s)).s);
      }
    }
  }

  predicate Asks(a: Ask) {
    !a.Pull? ==> Sound(a.r)
  }

  /** The entry of a bracket or one of its exits is pulled, or something comes in its place. */
  predicate PullsBracket(s: State, a: Ask) {
    !a.Enter? && a.id in s.orders && (s.orders[a.id].cond.Exit? || s.orders[a.id].cond.Entry?)
  }

  lemma WithdrawnKept(s: State, id: nat)
    requires Symmetric(s.orders) && id in s.orders && !s.orders[id].cond.Exit? && !s.orders[id].cond.Entry?
    ensures Kept(s, Withdrawn(s, id))
  {
  }

  /** A window keeps what holds between windows, and without an exception cancels no exit and
      takes nothing from an entry unless it is asked to pull one. */
  lemma WindowedOk(s: State, a: Ask, engine: nat -> Call)
    requires Idle(s) && Asks(a)
    ensures var w := Windowed(s, a, engine);
      Idle(w.s) && (!w.thrown && !PullsBracket(s, a) ==> Kept(s, w.s))
  {
    hide Inv, Legged, Kept, Requested, Settled, Withdrawn, Potential;
    KeptSelf(s);
    if a.Enter? {
      SettledOk(s, a.r, engine);
    } else if a.id in s.orders {
      WithdrawnOk(s, a.id);
      WithdrawnLegged(s, a.id);
      WithdrawnQueue(s, a.id);
      var s1 := Withdrawn(s, a.id);
      if !PullsBracket(s, a) {
        assert Symmetric(s.orders) by {
          Linkings(s);
        }
        WithdrawnKept(s, a.id);
      }
      if a.InPlaceOf? {
        SettledOk(s1, a.r, engine);
        var w := Settled(Requested(s1, a.r, engine), engine);
        if !w.thrown && !PullsBracket(s, a) {
          KeptTrans(s, s1, w.s);
        }
      }
    }
  }

  lemma Linkings(s: State)
    requires Inv(s, 0, 0)
    ensures Symmetric(s.orders)
  {
  }

  lemma WithdrawnQueue(s: State, id: nat)
    requires id in s.orders
    ensures Withdrawn(s, id).queue == s.queue
  {
  }

  /* ---- sessions ---- */

  function Beginning(): State {
    State(map[], [], 0, {}, {}, {}, map[], map[], {}, map[], [])
  }

  /** Windows one after the other; the engine answers each on its own. */
  function Ran(asks: seq<Ask>, engine: nat -> nat -> Call): State {
    if asks == [] then Beginning()
    else Windowed(Ran(asks[..|asks| - 1], engine), asks[|asks| - 1], engine(|asks| - 1)).s
  }

  /** No window throws, and no order of a bracket is pulled. */
  predicate Calm(asks: seq<Ask>, engine: nat -> nat -> Call) {
    asks == [] ||
      var s := Ran(asks[..|asks| - 1], engine);
      var a := asks[|asks| - 1];
      Calm(asks[..|asks| - 1], engine) && !Windowed(s, a, engine(|asks| - 1)).thrown && !PullsBracket(s, a)
  }

  lemma BeginningIdle()
    ensures Idle(Beginning())
  {
  }

  lemma {:induction false} RanIdle(asks: seq<Ask>, engine: nat -> nat -> Call)
    requires forall a :: a in asks ==> Asks(a)
    ensures var s := Ran(asks, engine);
      Idle(s) && (Calm(asks, engine) ==> Entries(s) && forall t :: t in s.exits ==> s.exits[t].cancelled == 0)
  {
    hide Idle, Windowed, PullsBracket;
    if asks == [] {
      BeginningIdle();
    } else {
      var n := |asks| - 1;
      assert asks[n] in asks && forall a :: a in asks[..n] ==> a in asks;
      RanIdle(asks[..n], engine);
      WindowedOk(Ran(asks[..n], engine), asks[n], engine(n));
    }
  }

  /** In such a session an entry that was accepted has all its size traded or resting ever after. */
  lemma {:induction false} EntryAccounted(asks: seq<Ask>, engine: nat -> nat -> Call, i: nat)
    requires (forall a :: a in asks ==> Asks(a)) && Calm(asks, engine) && i < |asks| && asks[i].Enter?
    requires asks[i].r.Bracket?
    ensures var s := Ran(asks, engine);
      var e := Ran(asks[..i], engine).lastId + 1;
      e in s.fills && s.fills[e] + (if e in s.orders then s.orders[e].sz else 0) == asks[i].r.sz
  {
    hide Idle, Windowed, PullsBracket, Kept;
    var n := |asks| - 1;
    assert asks[n] in asks && forall a :: a in asks[..n] ==> a in asks;
    var s := Ran(asks[..n], engine);
    RanIdle(asks[..n], engine);
    if i == n {
      BracketAccounted(s, asks[n], engine(n));
    } else {
      WindowedOk(s, asks[n], engine(n));
      assert asks[..n][..i] == asks[..i];
      EntryAccounted(asks[..n], engine, i);
      StillWorked(s, Ran(asks, engine), Ran(asks[..i], engine).lastId + 1);
    }
  }

  lemma StillWorked(s: State, s': State, e: nat)
    requires Kept(s, s') && Entries(s) && e in s.fills
    ensures e in s'.fills && Worked(s', e) == Worked(s, e)
  {
  }

  lemma BracketAccounted(s: State, a: Ask, engine: nat -> Call)
    requires Idle(s) && Entries(s) && Asks(a) && a.Enter? && a.r.Bracket? && !Windowed(s, a, engine).thrown
    ensures var s' := Windowed(s, a, engine).s; s.lastId + 1 in s'.fills && Worked(s', s.lastId + 1) == a.r.sz
  {
    hide Inv, Legged, Kept, Potential, EntryEntered, Drained, Entries;
    var sz := a.r.sz;
    EntryKept(s, sz, engine(0));
    EntryEnteredOk(s, sz, engine(0));
    EntryLegged(s, sz, engine(0));
    var t := EntryEntered(s, sz, engine(0)).s;
    DrainedOk(t, engine, 2, Potential(t));
    assert Entries(t) by {
      StillEntries(s, t);
    }
    StillWorked(t, Windowed(s, a, engine).s, s.lastId + 1);
  }

  lemma StillEntries(s: State, s': State)
    requires Kept(s, s') && Entries(s)
    ensures Entries(s')
  {
  }
}
