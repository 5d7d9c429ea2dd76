/**
 * Provider calls of external-wait tasks: eight permits, two calls a task, a
 * queue of eight places and eight workers. A ticket is one acquired permit on
 * its way from the recovery pass through the queue to its release; the counts
 * per task and the permits are updated in separate critical sections.
 */
module ExternalWait {

  const CAPACITY: nat := 8
  const PER_TASK: nat := 2

  type Ticket = nat
  type TaskId = nat

  /**
   * Taken: the permit is acquired and not counted yet. Counted: the recovery pass is claiming the task. Waiting: in the
   * queue. Working: with a worker. Leaving: no longer counted, permit not released yet. Stranded: the claim raised.
   */
  datatype Phase = Taken | Counted | Waiting | Working | Leaving | Stranded
  datatype Call = Call(task: TaskId, phase: Phase)

  datatype State = State(free: int, calls: map<Ticket, Call>, inflight: map<TaskId, nat>, queue: seq<Ticket>)

  const INITIAL := State(CAPACITY, map[], map[], [])

  predicate InFlight(p: Phase) {
    p == Counted || p == Waiting || p == Working || p == Stranded
  }

  function CallsOf(s: State, task: TaskId): set<Ticket> {
    set t | t in s.calls && s.calls[t].task == task && InFlight(s.calls[t].phase)
  }

  function WaitingCalls(s: State): set<Ticket> {
    set t | t in s.calls && s.calls[t].phase == Waiting
  }

  function Count(s: State, task: TaskId): nat {
    if task in s.inflight then s.inflight[task] else 0
  }

  datatype Action =
    | Acquire(ticket: Ticket, task: TaskId)   // a non-blocking acquire; the pass ends when none is free
    | Admit(ticket: Ticket)                   // under the lock: count the call, or find the task full and leave
    | Release(ticket: Ticket)                 // give the permit back
    | ClaimNone(ticket: Ticket)               // nothing to claim: uncount under the lock
    | ClaimRaises(ticket: Ticket)             // the recovery pass dies with the exception
    | Enqueue(ticket: Ticket)                 // put_nowait
    | Take(ticket: Ticket)                    // a worker gets the oldest item
    | Complete(ticket: Ticket)                // the worker's finally clause: uncount under the lock

  predicate Enabled(s: State, a: Action) {
    match a
    case Acquire(t, _) => t !in s.calls && s.free > 0
    case Admit(t) => t in s.calls && s.calls[t].phase == Taken
    case Release(t) => t in s.calls && s.calls[t].phase == Leaving
    case ClaimNone(t) => t in s.calls && s.calls[t].phase == Counted
    case ClaimRaises(t) => t in s.calls && s.calls[t].phase == Counted
    case Enqueue(t) => t in s.calls && s.calls[t].phase == Counted
    case Take(t) => s.queue != [] && s.queue[0] == t && t in s.calls
    case Complete(t) => t in s.calls && s.calls[t].phase == Working
  }

  function Move(s: State, t: Ticket, p: Phase): State
    requires t in s.calls
  {
    s.(calls := s.calls[t := s.calls[t].(phase := p)])
  }

  /** One call fewer for a task; a count of zero is dropped. */
  function Uncount(inflight: map<TaskId, nat>, task: TaskId): map<TaskId, nat> {
    var count: int := (if task in inflight then inflight[task] as int else 1) - 1;
    if count <= 0 then inflight - {task} else inflight[task := count]
  }

  function Step(s: State, a: Action): State
    requires Enabled(s, a)
  {
    match a
    case Acquire(t, task) => s.(free := s.free - 1, calls := s.calls[t := Call(task, Taken)])
    case Admit(t) =>
      var task := s.calls[t].task;
      if Count(s, task) >= PER_TASK then Move(s, t, Leaving)
      else Move(s, t, Counted).(inflight := s.inflight[task := Count(s, task) + 1])
    case Release(t) => s.(free := s.free + 1, calls := s.calls - {t})
    case ClaimNone(t) => Move(s, t, Leaving).(inflight := Uncount(s.inflight, s.calls[t].task))
    case ClaimRaises(t) => Move(s, t, Stranded)
    case Enqueue(t) => Move(s, t, Waiting).(queue := s.queue + [t])
    case Take(t) => Move(s, t, Working).(queue := s.queue[1..])
    case Complete(t) => Move(s, t, Leaving).(inflight := Uncount(s.inflight, s.calls[t].task))
  }

  // ---- what every step keeps ----

  ghost predicate Conserved(s: State) {
    s.free + |s.calls| == CAPACITY && 0 <= s.free
  }

  /** A task's count is the number of its calls, two at most, and is dropped at zero. */
  ghost predicate CountsAgree(s: State) {
    && (forall task :: Count(s, task) == |CallsOf(s, task)|)
    && (forall task :: task in s.inflight ==> 1 <= s.inflight[task] <= PER_TASK)
  }

  /** The queue holds each waiting call once, and nothing else. */
  ghost predicate Queued(s: State) {
    && (forall t :: t in s.queue <==> t in WaitingCalls(s))
    && (forall i, j :: 0 <= i < j < |s.queue| ==> s.queue[i] != s.queue[j])
  }

  ghost predicate Sound(s: State) {
    Conserved(s) && CountsAgree(s) && Queued(s)
  }

  lemma MoveKeepsConserved(s: State, t: Ticket, p: Phase)
    requires t in s.calls
    ensures |Move(s, t, p).calls| == |s.calls|
  {
    assert Move(s, t, p).calls.Keys == s.calls.Keys;
  }

  /** A call that joins or leaves a task's count changes that task's calls by one, and no other task's. */
  lemma MovedCalls(s: State, t: Ticket, p: Phase, task: TaskId)
    requires t in s.calls
    ensures CallsOf(Move(s, t, p), task) ==
      if s.calls[t].task != task then CallsOf(s, task)
      else if InFlight(p) then CallsOf(s, task) + {t} else CallsOf(s, task) - {t}
  {
  }

  lemma CountIn(s: State, s': State, t: Ticket)
    requires CountsAgree(s) && t in s.calls && !InFlight(s.calls[t].phase) && Count(s, s.calls[t].task) < PER_TASK
    requires s'.calls == Move(s, t, Counted).calls
      && s'.inflight == s.inflight[s.calls[t].task := Count(s, s.calls[t].task) + 1]
    ensures CountsAgree(s')
  {
    forall task ensures Count(s', task) == |CallsOf(s', task)| {
      MovedCalls(s, t, Counted, task);
      assert CallsOf(s', task) == CallsOf(Move(s, t, Counted), task);
      assert t !in CallsOf(s, task);
    }
  }

  lemma CountOut(s: State, s': State, t: Ticket)
    requires CountsAgree(s) && t in s.calls && InFlight(s.calls[t].phase)
    requires s'.calls == Move(s, t, Leaving).calls && s'.inflight == Uncount(s.inflight, s.calls[t].task)
    ensures CountsAgree(s') && s.calls[t].task in s.inflight
  {
    var mine := s.calls[t].task;
    assert t in CallsOf(s, mine);
    forall task ensures Count(s', task) == |CallsOf(s', task)| {
      MovedCalls(s, t, Leaving, task);
      assert CallsOf(s', task) == CallsOf(Move(s, t, Leaving), task);
    }
  }

  /** Moving between two phases on the same side of the count changes no count. */
  lemma CountSame(s: State, s': State, t: Ticket, p: Phase)
    requires CountsAgree(s) && t in s.calls && (InFlight(s.calls[t].phase) <==> InFlight(p))
    requires s'.calls == Move(s, t, p).calls && s'.inflight == s.inflight
    ensures CountsAgree(s')
  {
    forall task ensures CallsOf(s', task) == CallsOf(s, task) {
      MovedCalls(s, t, p, task);
    }
    forall task ensures Count(s', task) == |CallsOf(s', task)| {
      assert Count(s, task) == |CallsOf(s, task)|;
    }
  }

  lemma ArriveKeepsCounts(s: State, t: Ticket, task: TaskId)
    requires CountsAgree(s) && t !in s.calls
    ensures CountsAgree(s.(free := s.free - 1, calls := s.calls[t := Call(task, Taken)]))
  {
    var s' := s.(free := s.free - 1, calls := s.calls[t := Call(task, Taken)]);
    forall x ensures CallsOf(s', x) == CallsOf(s, x) { }
    forall x ensures Count(s', x) == |CallsOf(s', x)| {
      assert Count(s, x) == |CallsOf(s, x)|;
    }
  }

  lemma DepartKeepsCounts(s: State, t: Ticket)
    requires CountsAgree(s) && t in s.calls && s.calls[t].phase == Leaving
    ensures CountsAgree(s.(free := s.free + 1, calls := s.calls - {t}))
  {
    var s' := s.(free := s.free + 1, calls := s.calls - {t});
    forall x ensures CallsOf(s', x) == CallsOf(s, x) { }
    forall x ensures Count(s', x) == |CallsOf(s', x)| {
      assert Count(s, x) == |CallsOf(s, x)|;
    }
  }

  lemma StepConserves(s: State, a: Action)
    requires Sound(s) && Enabled(s, a)
    ensures Conserved(Step(s, a))
  {
    match a
    case Acquire(t, task) => assert s.calls[t := Call(task, Taken)].Keys == s.calls.Keys + {t};
    case Release(t) => assert (s.calls - {t}).Keys == s.calls.Keys - {t};
    case Admit(t) =>
      MoveKeepsConserved(s, t, Leaving);
      MoveKeepsConserved(s, t, Counted);
    case ClaimNone(t) => MoveKeepsConserved(s, t, Leaving);
    case ClaimRaises(t) => MoveKeepsConserved(s, t, Stranded);
    case Enqueue(t) => MoveKeepsConserved(s, t, Waiting);
    case Take(t) => MoveKeepsConserved(s, t, Working);
    case Complete(t) => MoveKeepsConserved(s, t, Leaving);
  }

  lemma HeadWaits(s: State)
    requires Queued(s) && s.queue != []
    ensures s.queue[0] in s.calls && s.calls[s.queue[0]].phase == Waiting
  {
    assert s.queue[0] in s.queue;
  }

  lemma StepCounts(s: State, a: Action)
    requires Sound(s) && Enabled(s, a)
    ensures CountsAgree(Step(s, a))
  {
    var s' := Step(s, a);
    match a
    case Acquire(t, task) => ArriveKeepsCounts(s, t, task);
    case Release(t) => DepartKeepsCounts(s, t);
    case Admit(t) =>
      if Count(s, s.calls[t].task) >= PER_TASK {
        CountSame(s, s', t, Leaving);
      } else {
        CountIn(s, s', t);
      }
    case ClaimNone(t) => CountOut(s, s', t);
    case ClaimRaises(t) => CountSame(s, s', t, Stranded);
    case Enqueue(t) => CountSame(s, s', t, Waiting);
    case Take(t) =>
      HeadWaits(s);
      CountSame(s, s', t, Working);
    case Complete(t) => CountOut(s, s', t);
  }

  lemma OtherMovesQueue(s: State, s': State, t: Ticket)
    requires Queued(s) && s'.queue == s.queue
    requires forall x :: x in s'.calls && s'.calls[x].phase == Waiting <==> x in s.calls && s.calls[x].phase == Waiting
    ensures Queued(s')
  {
    assert WaitingCalls(s') == WaitingCalls(s);
  }

  lemma EnqueueQueues(s: State, t: Ticket)
    requires Queued(s) && t in s.calls && s.calls[t].phase == Counted
    ensures Queued(Move(s, t, Waiting).(queue := s.queue + [t]))
  {
    assert WaitingCalls(Move(s, t, Waiting)) == WaitingCalls(s) + {t};
    assert t !in s.queue;
  }

  lemma TakeQueues(s: State)
    requires Queued(s) && s.queue != [] && s.queue[0] in s.calls
    ensures Queued(Move(s, s.queue[0], Working).(queue := s.queue[1..]))
  {
    var t := s.queue[0];
    assert WaitingCalls(Move(s, t, Working)) == WaitingCalls(s) - {t};
    assert s.queue == [t] + s.queue[1..];
    assert t !in s.queue[1..] by { assert forall i :: 0 < i < |s.queue| ==> s.queue[0] != s.queue[i]; }
  }

  lemma StepQueues(s: State, a: Action)
    requires Sound(s) && Enabled(s, a)
    ensures Queued(Step(s, a))
  {
    match a
    case Enqueue(t) => EnqueueQueues(s, t);
    case Take(_) => TakeQueues(s);
    case Acquire(t, _) => OtherMovesQueue(s, Step(s, a), t);
    case Admit(t) => OtherMovesQueue(s, Step(s, a), t);
    case Release(t) => OtherMovesQueue(s, Step(s, a), t);
    case ClaimNone(t) => OtherMovesQueue(s, Step(s, a), t);
    case ClaimRaises(t) => OtherMovesQueue(s, Step(s, a), t);
    case Complete(t) => OtherMovesQueue(s, Step(s, a), t);
  }

  function Run(s: State, actions: seq<Action>): State {
    if actions == [] then s
    else
      var before := Run(s, actions[..|actions| - 1]);
      var a := actions[|actions| - 1];
      if Enabled(before, a) then Step(before, a) else before
  }

  /** In every interleaving of recovery passes and workers. */
  lemma {:induction false} RunIsSound(actions: seq<Action>)
    ensures Sound(Run(INITIAL, actions))
  {
    if actions == [] {
      forall task ensures CallsOf(INITIAL, task) == {} { }
    } else {
      var before := Run(INITIAL, actions[..|actions| - 1]);
      RunIsSound(actions[..|actions| - 1]);
      if Enabled(before, actions[|actions| - 1]) {
        StepConserves(before, actions[|actions| - 1]);
        StepCounts(before, actions[|actions| - 1]);
        StepQueues(before, actions[|actions| - 1]);
      }
    }
  }

  // ---- permits, counts and places ----

  function InFlightOf(s: State, tasks: set<TaskId>): set<Ticket> {
    set t | t in s.calls && InFlight(s.calls[t].phase) && s.calls[t].task in tasks
  }

  /** The sum of the counts of some tasks. */
  ghost function SumOf(inflight: map<TaskId, nat>, tasks: set<TaskId>): nat
    requires tasks <= inflight.Keys
  {
    if tasks == {} then 0
    else
      var k :| k in tasks;
      inflight[k] + SumOf(inflight, tasks - {k})
  }

  lemma {:induction false} SumCountsCalls(s: State, tasks: set<TaskId>)
    requires CountsAgree(s) && tasks <= s.inflight.Keys
    ensures SumOf(s.inflight, tasks) == |InFlightOf(s, tasks)|
  {
    if tasks == {} {
      assert InFlightOf(s, tasks) == {};
    } else {
      var k :| k in tasks && SumOf(s.inflight, tasks) == s.inflight[k] + SumOf(s.inflight, tasks - {k});
      SumCountsCalls(s, tasks - {k});
      assert InFlightOf(s, tasks) == CallsOf(s, k) + InFlightOf(s, tasks - {k});
      assert CallsOf(s, k) !! InFlightOf(s, tasks - {k});
      assert Count(s, k) == |CallsOf(s, k)|;
    }
  }

  /** Calls whose permit is held outside the two critical sections that count them. */
  function Between(s: State): set<Ticket> {
    set t | t in s.calls && !InFlight(s.calls[t].phase)
  }

  /** Taken permits are the counted calls and those between counting and the semaphore. */
  lemma TakenPermitsAreCounted(s: State)
    requires Sound(s)
    ensures CAPACITY - s.free == SumOf(s.inflight, s.inflight.Keys) + |Between(s)|
  {
    SumCountsCalls(s, s.inflight.Keys);
    forall t | t in s.calls && InFlight(s.calls[t].phase) ensures s.calls[t].task in s.inflight {
      assert t in CallsOf(s, s.calls[t].task);
      assert Count(s, s.calls[t].task) == |CallsOf(s, s.calls[t].task)|;
    }
    assert s.calls.Keys == InFlightOf(s, s.inflight.Keys) + Between(s);
    assert InFlightOf(s, s.inflight.Keys) !! Between(s);
    assert |s.calls| == |s.calls.Keys|;
  }

  function Items(q: seq<Ticket>): set<Ticket> {
    set t | t in q
  }

  lemma {:induction false} DistinctIsSet(q: seq<Ticket>)
    requires forall i, j :: 0 <= i < j < |q| ==> q[i] != q[j]
    ensures |Items(q)| == |q|
  {
    if q == [] {
      assert Items(q) == {};
    } else {
      var n := |q| - 1;
      DistinctIsSet(q[..n]);
      assert q == q[..n] + [q[n]];
      assert Items(q) == Items(q[..n]) + {q[n]};
      assert q[n] !in q[..n];
    }
  }

  /** Queued items never exceed the taken permits; when an item is about to be queued, there is a place for it. */
  lemma QueueNeverOverflows(s: State, t: Ticket)
    requires Sound(s)
    ensures |s.queue| <= CAPACITY - s.free
    ensures Enabled(s, Enqueue(t)) ==> |s.queue| < CAPACITY
  {
    DistinctIsSet(s.queue);
    assert |s.calls| == |s.calls.Keys|;
    forall x | x in Items(s.queue) ensures x in s.calls.Keys { }
    Subset(Items(s.queue), s.calls.Keys);
    if Enabled(s, Enqueue(t)) {
      assert t !in Items(s.queue);
      Subset(Items(s.queue) + {t}, s.calls.Keys);
    }
  }

  lemma {:induction false} Subset(a: set<Ticket>, b: set<Ticket>)
    requires a <= b
    ensures |a| <= |b|
  {
    if a != {} {
      var x :| x in a;
      Subset(a - {x}, b - {x});
    }
  }

  /** A claim that raises keeps its permit and its count for good: no step of any later run gives them back. */
  lemma {:induction false} StrandedForGood(s: State, t: Ticket, actions: seq<Action>)
    requires Sound(s) && t in s.calls && s.calls[t].phase == Stranded
    ensures Sound(Run(s, actions)) && t in Run(s, actions).calls && Run(s, actions).calls[t] == s.calls[t]
    ensures Run(s, actions).free < CAPACITY && Count(Run(s, actions), s.calls[t].task) >= 1
  {
    var end := Run(s, actions);
    if actions != [] {
      var n := |actions| - 1;
      var before := Run(s, actions[..n]);
      StrandedForGood(s, t, actions[..n]);
      if Enabled(before, actions[n]) {
        StepConserves(before, actions[n]);
        StepCounts(before, actions[n]);
        StepQueues(before, actions[n]);
        if actions[n].Take? { HeadWaits(before); }
      }
    }
    assert t in CallsOf(end, s.calls[t].task);
    assert Count(end, s.calls[t].task) == |CallsOf(end, s.calls[t].task)|;
    assert |end.calls| == |end.calls.Keys|;
  }

  /** In every run: no task has more than two calls, and the counts, the permits and the queue agree. */
  lemma CapacityHolds(actions: seq<Action>, task: TaskId)
    ensures var s := Run(INITIAL, actions);
      && Count(s, task) <= PER_TASK && 0 <= s.free <= CAPACITY
      && CAPACITY - s.free == SumOf(s.inflight, s.inflight.Keys) + |Between(s)|
      && |s.queue| <= CAPACITY - s.free
  {
    RunIsSound(actions);
    TakenPermitsAreCounted(Run(INITIAL, actions));
    QueueNeverOverflows(Run(INITIAL, actions), 0);
  }

  // ---- exactly when all permits come back ----

  function StrandedCalls(s: State): set<Ticket> {
    set t | t in s.calls && s.calls[t].phase == Stranded
  }

  lemma StepIsSound(s: State, a: Action)
    requires Sound(s) && Enabled(s, a)
    ensures Sound(Step(s, a))
  {
    StepConserves(s, a);
    StepCounts(s, a);
    StepQueues(s, a);
  }

  /** The next step of a call that is not stranded; one that waits is moved by moving the head of the queue. */
  function NextAction(s: State, t: Ticket): Action
    requires t in s.calls && s.calls[t].phase != Stranded && (s.calls[t].phase == Waiting ==> s.queue != [])
  {
    match s.calls[t].phase
    case Taken => Admit(t)
    case Counted => ClaimNone(t)
    case Waiting => Take(s.queue[0])
    case Working => Complete(t)
    case _ => Release(t)
  }

  /** The steps left to a call whose turn has come. */
  function Remaining(p: Phase): nat {
    match p case Taken => 3 case Counted => 2 case Waiting => 3 case Working => 2 case Leaving => 1 case Stranded => 0
  }

  /** While a call is not stranded, some step moves it, or the call at the head of the queue before it. */
  lemma CallCanMove(s: State, t: Ticket)
    requires Sound(s) && t in s.calls && s.calls[t].phase != Stranded
    ensures s.calls[t].phase == Waiting ==> t in s.queue
    ensures var a := NextAction(s, t);
      && Enabled(s, a) && a.ticket in s.calls && s.calls[a.ticket].phase == s.calls[t].phase
      && (s.calls[t].phase != Leaving ==>
            a.ticket in Step(s, a).calls && Remaining(Step(s, a).calls[a.ticket].phase) < Remaining(s.calls[t].phase))
  {
    if s.calls[t].phase == Waiting {
      assert t in WaitingCalls(s) && t in s.queue;
      HeadWaits(s);
    }
  }

  /** `s'` is `s` without one call that was not stranded. */
  ghost predicate Drained(s: State, s': State) {
    && Sound(s') && StrandedCalls(s') == StrandedCalls(s)
    && |s'.calls| < |s.calls|
  }

  /** A call on its way out. */
  lemma LeavingDrains(s: State, t: Ticket)
    requires Sound(s) && t in s.calls && s.calls[t].phase == Leaving
    ensures Enabled(s, Release(t)) && Drained(s, Step(s, Release(t)))
  {
    StepIsSound(s, Release(t));
    assert (s.calls - {t}).Keys == s.calls.Keys - {t};
    assert |s.calls| == |s.calls.Keys| && |s.calls - {t}| == |(s.calls - {t}).Keys|;
  }

  /** A step that only moves a call that is not stranded, and does not strand it. */
  lemma MoveKeepsStranded(s: State, a: Action)
    requires Sound(s) && Enabled(s, a) && !a.Acquire? && !a.ClaimRaises? && !a.Release?
    ensures Sound(Step(s, a)) && StrandedCalls(Step(s, a)) == StrandedCalls(s) && |Step(s, a).calls| == |s.calls|
  {
    StepIsSound(s, a);
    if a.Take? { HeadWaits(s); }
    assert Step(s, a).calls.Keys == s.calls.Keys;
    assert |s.calls| == |s.calls.Keys| && |Step(s, a).calls| == |Step(s, a).calls.Keys|;
  }

  lemma {:induction false} RunSplits(s: State, a: seq<Action>, b: seq<Action>)
    ensures Run(s, a + b) == Run(Run(s, a), b)
  {
    if b == [] {
      assert a + b == a;
    } else {
      var n := |b| - 1;
      assert (a + b)[..|a| + n] == a + b[..n] && (a + b)[|a| + n] == b[n];
      RunSplits(s, a, b[..n]);
    }
  }

  lemma RunStep(s: State, a: Action, more: seq<Action>)
    requires Enabled(s, a)
    ensures Run(s, [a] + more) == Run(Step(s, a), more)
  {
    RunSplits(s, [a], more);
    assert [a][..0] == [];
  }

  /** A call that is not waiting can be brought to its end. */
  lemma {:induction false} DrainCall(s: State, t: Ticket) returns (actions: seq<Action>)
    requires Sound(s) && t in s.calls && s.calls[t].phase != Stranded && s.calls[t].phase != Waiting
    ensures Drained(s, Run(s, actions))
    decreases Remaining(s.calls[t].phase)
  {
    var a := NextAction(s, t);
    CallCanMove(s, t);
    if s.calls[t].phase == Leaving {
      LeavingDrains(s, t);
      actions := [a];
      RunStep(s, a, []);
      assert [a] + [] == [a];
    } else {
      MoveKeepsStranded(s, a);
      var rest := DrainCall(Step(s, a), t);
      RunStep(s, a, rest);
      actions := [a] + rest;
    }
  }

  /** One call fewer: the one given, or the one that waits at the head of the queue. */
  lemma DrainSome(s: State, t: Ticket) returns (actions: seq<Action>)
    requires Sound(s) && t in s.calls && s.calls[t].phase != Stranded
    ensures Drained(s, Run(s, actions))
  {
    CallCanMove(s, t);
    if s.calls[t].phase == Waiting {
      var a := NextAction(s, t);
      MoveKeepsStranded(s, a);
      var rest := DrainCall(Step(s, a), a.ticket);
      RunStep(s, a, rest);
      actions := [a] + rest;
    } else {
      actions := DrainCall(s, t);
    }
  }

  /** From every sound state some run gives every permit back but those of stranded calls. */
  lemma {:induction false} PermitsComeBack(s: State) returns (actions: seq<Action>)
    requires Sound(s)
    ensures Sound(Run(s, actions)) && Run(s, actions).free == CAPACITY - |StrandedCalls(s)|
    decreases |s.calls|
  {
    if t :| t in s.calls && s.calls[t].phase != Stranded {
      var first := DrainSome(s, t);
      var rest := PermitsComeBack(Run(s, first));
      RunSplits(s, first, rest);
      actions := first + rest;
    } else {
      actions := [];
      assert StrandedCalls(s) == s.calls.Keys;
      assert |s.calls| == |s.calls.Keys|;
    }
  }

  /** A claim raised in this run. */
  ghost predicate SomeClaimRaised(actions: seq<Action>) {
    exists k :: 0 <= k < |actions| && actions[k].ClaimRaises? && Enabled(Run(INITIAL, actions[..k]), actions[k])
  }

  lemma {:induction false} StrandedByAClaim(actions: seq<Action>)
    requires StrandedCalls(Run(INITIAL, actions)) != {}
    ensures SomeClaimRaised(actions)
  {
    var t :| t in StrandedCalls(Run(INITIAL, actions));
    assert actions != [];
    var n := |actions| - 1;
    var before := Run(INITIAL, actions[..n]);
    if t in StrandedCalls(before) {
      StrandedByAClaim(actions[..n]);
      var k :| 0 <= k < n && actions[..n][k].ClaimRaises? && Enabled(Run(INITIAL, actions[..n][..k]), actions[..n][k]);
      assert actions[..n][..k] == actions[..k];
    } else {
      RunIsSound(actions[..n]);
      if Enabled(before, actions[n]) && actions[n].Take? { HeadWaits(before); }
      assert actions[n].ClaimRaises? && Enabled(before, actions[n]);
    }
  }

  lemma RaisedStaysStranded(actions: seq<Action>, k: nat)
    requires k < |actions| && actions[k].ClaimRaises? && Enabled(Run(INITIAL, actions[..k]), actions[k])
    ensures StrandedCalls(Run(INITIAL, actions)) != {}
  {
    var t, rest := actions[k].ticket, actions[k + 1..];
    RunIsSound(actions[..k + 1]);
    assert actions[..k + 1][..k] == actions[..k];
    RunSplits(INITIAL, actions[..k + 1], rest);
    assert actions[..k + 1] + rest == actions;
    StrandedForGood(Run(INITIAL, actions[..k + 1]), t, rest);
    assert t in StrandedCalls(Run(INITIAL, actions));
  }

  /** After any run, the permits can all come back if and only if no claim has raised. */
  lemma PermitsComeBackExactly(actions: seq<Action>)
    ensures (exists more :: Run(Run(INITIAL, actions), more).free == CAPACITY) <==> !SomeClaimRaised(actions)
  {
    var s := Run(INITIAL, actions);
    RunIsSound(actions);
    if SomeClaimRaised(actions) {
      var k :| 0 <= k < |actions| && actions[k].ClaimRaises? && Enabled(Run(INITIAL, actions[..k]), actions[k]);
      RaisedStaysStranded(actions, k);
      var t :| t in StrandedCalls(s);
      forall more ensures Run(s, more).free != CAPACITY { StrandedForGood(s, t, more); }
    } else {
      if StrandedCalls(s) != {} { StrandedByAClaim(actions); }
      var more := PermitsComeBack(s);
      assert |StrandedCalls(s)| == 0 && Run(Run(INITIAL, actions), more).free == CAPACITY;
    }
  }
}
