/** The hand-off of callbacks to the callback thread, as a machine whose steps are the
    critical sections and the callbacks themselves, in any interleaving. */
module AsyncCallbacks {

  /** A callback, or the null message that ends the thread. */
  datatype Message = Callback(id: nat) | Null

  /** Where the callback thread is: waiting for messages, working on its copies of them, on its
      way out with the null message, or gone. */
  datatype Phase = Waiting | Working | Leaving | Gone

  /** copies: the messages the thread has taken and not yet got to. pushed, executed and waits,
      the returns from waiting with how many callbacks were pushed and executed then, are history. */
  datatype State = State(queue: seq<Message>, copies: seq<Message>, done: bool, phase: Phase, closed: bool,
                         pushed: seq<nat>, executed: seq<nat>, waits: seq<(nat, nat)>)

  const START := State([], [], true, Waiting, false, [], [], [])

  datatype Action =
    | Push(id: nat)      // the dispatcher queues a callback
    | Close              // the dispatcher ends and queues the null message
    | Take               // the thread takes all that is queued
    | Execute            // the thread gets to its next message
    | Notify             // the thread reports that it is done
    | Wait               // a waiting client is let go

  /** An action whose guard does not hold does not happen. */
  function Step(s: State, a: Action): State {
    match a
    case Push(id) => if s.closed then s else s.(queue := s.queue + [Callback(id)], pushed := s.pushed + [id])
    case Close => if s.closed then s else s.(queue := s.queue + [Null], closed := true)
    case Take =>
      if s.phase.Waiting? && s.queue != [] then s.(done := false, copies := s.queue, queue := [], phase := Working)
        else s
    case Execute =>
      if !s.phase.Working? || s.copies == [] then s
      else if s.copies[0].Null? then s.(copies := [], phase := Leaving)
      else s.(copies := s.copies[1..], executed := s.executed + [s.copies[0].id])
    case Notify =>
      if s.phase.Working? && s.copies == [] then s.(done := true, phase := Waiting)
      else if s.phase.Leaving? then s.(done := true, phase := Gone)
      else s
    case Wait =>
      if s.done && s.queue == [] then s.(waits := s.waits + [(|s.pushed|, |s.executed|)]) else s
  }

  function Run(s: State, actions: seq<Action>): State
    decreases |actions|
  {
    if actions == [] then s else Run(Step(s, actions[0]), actions[1..])
  }

  /** The callbacks among some messages. */
  function Calls(ms: seq<Message>): seq<nat> {
    if ms == [] then [] else (if ms[0].Callback? then [ms[0].id] else []) + Calls(ms[1..])
  }

  lemma CallsHead(ms: seq<Message>)
    requires ms != []
    ensures Calls(ms) == (if ms[0].Callback? then [ms[0].id] else []) + Calls(ms[1..])
  {
  }

  lemma {:induction false} CallsConcat(a: seq<Message>, b: seq<Message>)
    ensures Calls(a + b) == Calls(a) + Calls(b)
  {
    if a == [] {
      assert a + b == b;
    } else {
      hide Calls;
      assert (a + b)[1..] == a[1..] + b;
      CallsHead(a);
      CallsHead(a + b);
      CallsConcat(a[1..], b);
      var first := if a[0].Callback? then [a[0].id] else [];
      assert first + (Calls(a[1..]) + Calls(b)) == first + Calls(a[1..]) + Calls(b);
    }
  }

  predicate NoNull(ms: seq<Message>) {
    forall m :: m in ms ==> m.Callback?
  }

  /** The null message, once queued, is the last of all and is got to last. */
  predicate NullLast(s: State) {
    var ms := s.copies + s.queue;
    if !s.closed then NoNull(ms) && !s.phase.Leaving? && !s.phase.Gone?
    else if s.phase.Leaving? || s.phase.Gone? then ms == []
    else ms != [] && ms[|ms| - 1].Null? && NoNull(ms[..|ms| - 1])
  }

  /** Everything pushed was executed, is with the thread or is queued, in that order. */
  predicate InOrder(s: State) {
    s.pushed == s.executed + Calls(s.copies) + Calls(s.queue)
  }

  predicate Inv(s: State) {
    && InOrder(s) && NullLast(s)
    && (s.done <==> s.phase.Waiting? || s.phase.Gone?)
    && (s.done ==> s.copies == [])
    && forall i :: 0 <= i < |s.waits| ==> s.waits[i].0 == s.waits[i].1
  }

  lemma PushInv(s: State, id: nat)
    requires Inv(s)
    ensures Inv(Step(s, Push(id)))
  {
    if !s.closed {
      PushOrder(s, Callback(id), [id]);
      hide Calls;
      assert s.copies + (s.queue + [Callback(id)]) == (s.copies + s.queue) + [Callback(id)];
    }
  }

  lemma CloseInv(s: State)
    requires Inv(s)
    ensures Inv(Step(s, Close))
  {
    if !s.closed {
      PushOrder(s, Null, []);
      ClosedNull(s);
      hide Calls, NullLast;
      assert s.pushed + [] == s.pushed;
    }
  }

  lemma ClosedNull(s: State)
    requires NullLast(s) && !s.closed
    ensures NullLast(s.(queue := s.queue + [Null], closed := true))
  {
    var ms := s.copies + (s.queue + [Null]);
    assert ms == (s.copies + s.queue) + [Null] && ms[..|ms| - 1] == s.copies + s.queue;
  }

  lemma TakeInv(s: State)
    requires Inv(s)
    ensures Inv(Step(s, Take))
  {
    if s.phase.Waiting? && s.queue != [] {
      assert s.copies == [] && Calls([]) == [];
      hide Calls;
      assert s.copies + s.queue == s.queue && s.queue + [] == s.queue;
      assert s.executed + [] + Calls(s.queue) == s.executed + Calls(s.queue) + [];
    }
  }

  lemma WaitInv(s: State)
    requires Inv(s)
    ensures Inv(Step(s, Wait))
  {
    if s.done && s.queue == [] {
      assert s.pushed == s.executed + [] + [];
    }
  }

  lemma NotifyInv(s: State)
    requires Inv(s)
    ensures Inv(Step(s, Notify))
  {
    hide Calls;
  }

  lemma StepInv(s: State, a: Action)
    requires Inv(s)
    ensures Inv(Step(s, a))
  {
    hide Inv, Step;
    match a
    case Push(id) => PushInv(s, id);
    case Close => CloseInv(s);
    case Take => TakeInv(s);
    case Execute => ExecuteInv(s);
    case Notify => NotifyInv(s);
    case Wait => WaitInv(s);
  }

  lemma PushOrder(s: State, m: Message, ids: seq<nat>)
    requires Calls([m]) == ids
    ensures s.executed + Calls(s.copies) + Calls(s.queue + [m]) == s.executed + Calls(s.copies) + Calls(s.queue) + ids
  {
    CallsConcat(s.queue, [m]);
  }

  lemma FirstIn(ms: seq<Message>)
    requires |ms| > 1
    ensures ms[0] in ms[..|ms| - 1]
  {
    assert ms[..|ms| - 1][0] == ms[0];
  }

  /** A null message got to first is the only one. */
  lemma Alone(ms: seq<Message>)
    requires ms != [] && ms[0].Null? && NoNull(ms[..|ms| - 1])
    ensures |ms| == 1
  {
    if |ms| > 1 {
      FirstIn(ms);
    }
  }

  lemma ExecuteInv(s: State)
    requires Inv(s)
    ensures Inv(Step(s, Execute))
  {
    if s.phase.Working? && s.copies != [] {
      CallsHead(s.copies);
      if s.copies[0].Null? {
        LastExecuted(s);
      } else {
        NextExecuted(s);
      }
    }
  }

  /** The null message is the last message there is. */
  lemma LastExecuted(s: State)
    requires NullLast(s) && s.phase.Working? && s.copies != [] && s.copies[0].Null?
    ensures |s.copies| == 1 && s.queue == [] && s.closed && Calls(s.copies[1..]) == []
  {
    var ms := s.copies + s.queue;
    assert ms[0] == s.copies[0] && ms[0] in ms;
    Alone(ms);
  }

  /** What is left of messages of which only the last is null, once a callback has been got to. */
  lemma RestNullLast(ms: seq<Message>)
    requires ms != [] && ms[0].Callback? && ms[|ms| - 1].Null? && NoNull(ms[..|ms| - 1])
    ensures var rest := ms[1..]; rest != [] && rest[|rest| - 1].Null? && NoNull(rest[..|rest| - 1])
  {
    var rest := ms[1..];
    assert |ms| > 1;
    forall m | m in rest[..|rest| - 1] ensures m.Callback? {
      var i :| 0 <= i < |rest| - 1 && rest[i] == m;
      assert ms[..|ms| - 1][i + 1] == m;
    }
  }

  lemma NextNull(s: State, rest: seq<Message>, executed: seq<nat>)
    requires NullLast(s) && s.phase.Working? && s.copies != [] && s.copies[0].Callback? && rest == s.copies[1..]
    ensures NullLast(s.(copies := rest, executed := executed))
  {
    var ms := s.copies + s.queue;
    assert ms[0] == s.copies[0];
    assert rest + s.queue == ms[1..];
    if s.closed {
      RestNullLast(ms);
    }
  }

  lemma NextExecuted(s: State)
    requires InOrder(s) && NullLast(s) && s.phase.Working? && s.copies != [] && s.copies[0].Callback?
    ensures var s' := s.(copies := s.copies[1..], executed := s.executed + [s.copies[0].id]);
      InOrder(s') && NullLast(s')
  {
    CallsHead(s.copies);
    NextNull(s, s.copies[1..], s.executed + [s.copies[0].id]);
    hide Calls, NullLast;
    assert s.executed + ([s.copies[0].id] + Calls(s.copies[1..])) ==
      s.executed + [s.copies[0].id] + Calls(s.copies[1..]);
  }

  lemma {:induction false} RunInv(s: State, actions: seq<Action>)
    requires Inv(s)
    ensures Inv(Run(s, actions))
    decreases |actions|
  {
    if actions != [] {
      StepInv(s, actions[0]);
      RunInv(Step(s, actions[0]), actions[1..]);
    }
  }

  /** In every interleaving callbacks are executed in the order they were pushed, each once, and none is lost. */
  lemma InOrderOnce(actions: seq<Action>)
    ensures var s := Run(START, actions);
      && s.pushed == s.executed + Calls(s.copies) + Calls(s.queue)
      && s.executed <= s.pushed
      && (s.phase.Gone? ==> s.executed == s.pushed)
  {
    RunInv(START, actions);
  }

  /** A client is let go only at a moment when all callbacks pushed so far have been executed. */
  lemma WaitsForAll(actions: seq<Action>, i: nat)
    requires i < |Run(START, actions).waits|
    ensures Run(START, actions).waits[i].0 == Run(START, actions).waits[i].1
  {
    RunInv(START, actions);
  }

  /* ---- everything comes ---- */

  lemma {:induction false} RunConcat(s: State, a: seq<Action>, b: seq<Action>)
    ensures Run(s, a + b) == Run(Run(s, a), b)
    decreases |a|
  {
    if a == [] {
      assert a + b == b;
    } else {
      assert (a + b)[1..] == a[1..] + b;
      RunConcat(Step(s, a[0]), a[1..], b);
    }
  }

  lemma RunOne(s: State, a: Action)
    ensures Run(s, [a]) == Step(s, a)
  {
    assert [a][1..] == [];
  }

  /** The thread at work gets through what it has taken, and reports. */
  lemma {:induction false} WorksOff(s: State) returns (more: seq<Action>)
    requires Inv(s) && s.phase.Working?
    ensures var r := Run(s, more);
      && Inv(r) && (r.phase.Waiting? || r.phase.Gone?) && r.queue == s.queue && r.pushed == s.pushed
    decreases |s.copies|
  {
    if s.copies == [] {
      more := [Notify];
      RunOne(s, Notify);
    } else if s.copies[0].Null? {
      more := [Execute] + [Notify];
      RunConcat(s, [Execute], [Notify]);
      RunOne(s, Execute);
      RunOne(Step(s, Execute), Notify);
    } else {
      StepInv(s, Execute);
      var rest := WorksOff(Step(s, Execute));
      more := [Execute] + rest;
      RunConcat(s, [Execute], rest);
      RunOne(s, Execute);
    }
    hide Inv;
    RunInv(s, more);
  }

  lemma NothingLeft(s: State)
    requires Inv(s) && s.queue == [] && (s.phase.Waiting? || s.phase.Gone?)
    ensures s.executed == s.pushed && s.done
  {
  }

  /** The thread that waits takes what is queued and gets through it. */
  lemma TakesUp(s: State) returns (more: seq<Action>)
    requires Inv(s) && (s.phase.Waiting? || s.phase.Gone?)
    ensures var r := Run(s, more); r.executed == r.pushed == s.pushed && r.queue == [] && r.done
  {
    if s.queue == [] {
      more := [];
      NothingLeft(s);
    } else {
      assert s.phase.Waiting?;
      StepInv(s, Take);
      var s1 := Step(s, Take);
      var rest := WorksOff(s1);
      more := [Take] + rest;
      RunConcat(s, [Take], rest);
      RunOne(s, Take);
      NothingLeft(Run(s1, rest));
    }
  }

  /** However things stand, the thread can still get through all that was pushed, with no further action of
      the dispatcher; a waiting client is then let go. */
  lemma AllComes(actions: seq<Action>) returns (more: seq<Action>)
    ensures var s := Run(START, actions);
      var r := Run(START, actions + more);
      r.executed == r.pushed == s.pushed && Step(r, Wait).waits == r.waits + [(|s.pushed|, |s.pushed|)]
  {
    var s := Run(START, actions);
    RunInv(START, actions);
    hide Inv;
    if s.phase.Working? {
      var a := WorksOff(s);
      var b := TakesUp(Run(s, a));
      more := a + b;
      RunConcat(s, a, b);
    } else if s.phase.Leaving? {
      RunOne(s, Notify);
      NotifyInv(s);
      var b := TakesUp(Step(s, Notify));
      more := [Notify] + b;
      RunConcat(s, [Notify], b);
    } else {
      more := TakesUp(s);
    }
    RunConcat(START, actions, more);
  }
}
