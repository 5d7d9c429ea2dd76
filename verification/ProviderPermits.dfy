/**
 * Eight permits shared by all synchronous catalog-provider reads. A read holds
 * its permit from before it is submitted until its worker, or whoever gave it
 * up before it started, releases it. A submission may also raise after it has
 * queued the work; then caller and worker both release.
 */
module ProviderPermits {

  const SLOTS: nat := 8

  type Read = nat

  /** Where the work of a read stands whose submission raised although it had queued it. */
  datatype Work = InQueue | OnWorker | Ended

  /**
   * Where one read stands. `Refused`: submission failed. `Revoked`: cancelled in the queue. Both still hold the permit.
   * `Torn`: submission failed, yet the work is queued; `handled` once the caller has released.
   */
  datatype Phase = Acquired | Queued | Running | Refused | Revoked | Released | Torn(handled: bool, work: Work)

  /** `released`: how often each read has called release. */
  datatype State = State(free: nat, phases: map<Read, Phase>, released: map<Read, nat>)

  const INITIAL := State(SLOTS, map[], map[])

  /** A read holds its permit until it first calls release. */
  predicate Holding(p: Phase) {
    match p
    case Released => false
    case Torn(handled, work) => !handled && work != Ended
    case _ => true
  }

  function Holders(s: State): set<Read> {
    set r | r in s.phases && Holding(s.phases[r])
  }

  /** One atomic step of the caller, of a worker thread, or of the executor. */
  datatype Action =
    | Acquire(read: Read)          // the semaphore, without blocking
    | Submit(read: Read)           // the future is queued
    | SubmitFails(read: Read)      // the executor raises, with nothing queued
    | SubmitTears(read: Read)      // the executor queues the work and then raises
    | ReleaseRefused(read: Read)   // the caller's handler
    | Start(read: Read)            // a worker takes the future off the queue
    | Finish(read: Read)           // the function returns or raises; the worker's finally clause releases
    | TimeOut(read: Read)          // the caller's deadline: cancelling succeeds only in the queue
    | ReleaseRevoked(read: Read)   // the caller's handler

  predicate Enabled(s: State, a: Action) {
    if a.Acquire? then a.read !in s.phases && s.free > 0
    else a.read in s.phases && Permits(s.phases[a.read], a)
  }

  predicate Permits(p: Phase, a: Action) {
    match a
    case Acquire(_) => false
    case Submit(_) => p == Acquired
    case SubmitFails(_) => p == Acquired
    case SubmitTears(_) => p == Acquired
    case ReleaseRefused(_) => p == Refused || (p.Torn? && !p.handled)
    case Start(_) => p == Queued || (p.Torn? && p.work == InQueue)
    case Finish(_) => p == Running || (p.Torn? && p.work == OnWorker)
    case TimeOut(_) => p == Queued || p == Running || p == Released
    case ReleaseRevoked(_) => p == Revoked
  }

  /** The phase that an action leads to. */
  function Next(p: Phase, a: Action): Phase {
    match a
    case Acquire(_) => Acquired
    case Submit(_) => Queued
    case SubmitFails(_) => Refused
    case SubmitTears(_) => Torn(false, InQueue)
    case ReleaseRefused(_) => if p.Torn? then p.(handled := true) else Released
    case Start(_) => if p.Torn? then p.(work := OnWorker) else Running
    case Finish(_) => if p.Torn? then p.(work := Ended) else Released
    case TimeOut(_) => if p == Queued then Revoked else p
    case ReleaseRevoked(_) => Released
  }

  predicate Releases(a: Action) {
    a.ReleaseRefused? || a.Finish? || a.ReleaseRevoked?
  }

  /** The semaphore is bounded: a release beyond its bound raises, and changes nothing. */
  function Freed(free: nat): nat {
    if free < SLOTS then free + 1 else free
  }

  function Calls(s: State, r: Read): nat {
    if r in s.released then s.released[r] else 0
  }

  function Step(s: State, a: Action): State
    requires Enabled(s, a)
  {
    if a.Acquire? then State(s.free - 1, s.phases[a.read := Acquired], s.released)
    else
      var phases := s.phases[a.read := Next(s.phases[a.read], a)];
      if Releases(a) then State(Freed(s.free), phases, s.released[a.read := Calls(s, a.read) + 1])
      else s.(phases := phases)
  }

  /** A step that is not enabled when its turn comes does not happen. */
  function Run(actions: seq<Action>): State {
    if actions == [] then INITIAL
    else
      var before := Run(actions[..|actions| - 1]);
      var a := actions[|actions| - 1];
      if Enabled(before, a) then Step(before, a) else before
  }

  // ---- conservation, and exactly when it fails ----

  /** Free and outstanding permits add up. */
  ghost predicate Conserved(s: State) {
    s.free + |Holders(s)| == SLOTS
  }

  /** A release by a read that has released before, while another read's permit is outstanding. */
  ghost predicate Steals(s: State, a: Action) {
    Enabled(s, a) && Releases(a) && !Holding(s.phases[a.read]) && Holders(s) != {}
  }

  lemma HoldersNext(s: State, a: Action)
    requires Enabled(s, a) && !a.Acquire?
    ensures Holders(Step(s, a)) ==
      if Holding(Next(s.phases[a.read], a)) then Holders(s) + {a.read} else Holders(s) - {a.read}
    ensures a.read in Holders(s) <==> Holding(s.phases[a.read])
  {
  }

  /** Only a release changes whether a read that is under way holds its permit, and after one it does not. */
  lemma NextHolds(p: Phase, a: Action)
    requires Permits(p, a)
    ensures Holding(Next(p, a)) <==> Holding(p) && !Releases(a)
  {
  }

  lemma AcquireConserves(s: State, r: Read)
    requires Conserved(s) && Enabled(s, Acquire(r))
    ensures Conserved(Step(s, Acquire(r)))
  {
    assert Holders(Step(s, Acquire(r))) == Holders(s) + {r};
  }

  lemma ReleaseConservesExactly(s: State, a: Action)
    requires Conserved(s) && Enabled(s, a) && Releases(a)
    ensures Conserved(Step(s, a)) <==> !Steals(s, a)
  {
    HoldersNext(s, a);
    NextHolds(s.phases[a.read], a);
    assert |Holders(s)| > 0 <==> Holders(s) != {};
    if Holding(s.phases[a.read]) { assert |Holders(s) - {a.read}| == |Holders(s)| - 1; }
  }

  /** From a conserved state, one step conserves exactly when it does not steal. */
  lemma StepConservesExactly(s: State, a: Action)
    requires Conserved(s) && Enabled(s, a)
    ensures Conserved(Step(s, a)) <==> !Steals(s, a)
  {
    if a.Acquire? {
      AcquireConserves(s, a.read);
    } else if Releases(a) {
      ReleaseConservesExactly(s, a);
    } else {
      HoldersNext(s, a);
      NextHolds(s.phases[a.read], a);
      assert Holders(Step(s, a)) == Holders(s);
    }
  }

  ghost predicate ConservedThroughout(actions: seq<Action>) {
    forall k :: 0 <= k <= |actions| ==> Conserved(Run(actions[..k]))
  }

  ghost predicate NeverSteals(actions: seq<Action>) {
    forall k :: 0 <= k < |actions| ==> !Steals(Run(actions[..k]), actions[k])
  }

  lemma RunNext(actions: seq<Action>, k: nat)
    requires k < |actions|
    ensures var before := Run(actions[..k]);
      Run(actions[..k + 1]) == if Enabled(before, actions[k]) then Step(before, actions[k]) else before
  {
    assert actions[..k + 1][..k] == actions[..k];
  }

  lemma {:induction false} HonestRunConserves(actions: seq<Action>, k: nat)
    requires NeverSteals(actions) && k <= |actions|
    ensures Conserved(Run(actions[..k]))
  {
    if k == 0 {
      assert Holders(INITIAL) == {};
    } else {
      HonestRunConserves(actions, k - 1);
      RunNext(actions, k - 1);
      if Enabled(Run(actions[..k - 1]), actions[k - 1]) { StepConservesExactly(Run(actions[..k - 1]), actions[k - 1]); }
    }
  }

  /**
   * Over every interleaving, free plus outstanding permits are eight all along if and only if no read ever releases a
   * second time while another read's permit is outstanding.
   */
  lemma PermitsAreConserved(actions: seq<Action>)
    ensures ConservedThroughout(actions) <==> NeverSteals(actions)
  {
    if NeverSteals(actions) {
      forall k | 0 <= k <= |actions| ensures Conserved(Run(actions[..k])) { HonestRunConserves(actions, k); }
    } else {
      var k :| 0 <= k < |actions| && Steals(Run(actions[..k]), actions[k]);
      RunNext(actions, k);
      if Conserved(Run(actions[..k])) { StepConservesExactly(Run(actions[..k]), actions[k]); }
    }
  }

  // ---- who releases how often ----

  function Due(p: Phase): nat {
    match p
    case Released => 1
    case Torn(handled, work) => (if handled then 1 else 0) + (if work == Ended then 1 else 0)
    case _ => 0
  }

  /** A read has called release once when it is over; twice only when its submission tore and both sides are through. */
  ghost predicate Accounted(s: State) {
    && s.free <= SLOTS
    && (forall r :: r in s.phases ==> Calls(s, r) == Due(s.phases[r]))
    && (forall r :: r !in s.phases ==> Calls(s, r) == 0)
  }

  lemma {:induction false} ReleasesAreAccounted(actions: seq<Action>)
    ensures Accounted(Run(actions))
  {
    if actions != [] { ReleasesAreAccounted(actions[..|actions| - 1]); }
  }

  ghost predicate Doubled(s: State, r: Read) {
    r in s.phases && s.phases[r] == Torn(true, Ended)
  }

  /** A read that released twice stays that way, so its second release can be looked for at the end. */
  lemma {:induction false} DoubledStays(actions: seq<Action>, k: nat, n: nat, r: Read)
    requires k <= n <= |actions| && Doubled(Run(actions[..k]), r)
    ensures Doubled(Run(actions[..n]), r)
    decreases n
  {
    if k < n {
      DoubledStays(actions, k, n - 1, r);
      RunNext(actions, n - 1);
    }
  }

  lemma StealDoubles(s: State, a: Action)
    requires Steals(s, a)
    ensures Doubled(Step(s, a), a.read)
  {
  }

  lemma StealShows(actions: seq<Action>, k: nat)
    requires k < |actions| && Steals(Run(actions[..k]), actions[k])
    ensures Doubled(Run(actions), actions[k].read)
  {
    RunNext(actions, k);
    StealDoubles(Run(actions[..k]), actions[k]);
    DoubledStays(actions, k + 1, |actions|, actions[k].read);
    assert actions[..|actions|] == actions;
  }

  /** If no read whose queued submission raised has been released by both sides, permits were conserved all along. */
  lemma NoDoubleReleaseConserves(actions: seq<Action>)
    requires forall r :: !Doubled(Run(actions), r)
    ensures ConservedThroughout(actions)
  {
    forall k | 0 <= k < |actions| ensures !Steals(Run(actions[..k]), actions[k]) {
      if Steals(Run(actions[..k]), actions[k]) { StealShows(actions, k); }
    }
    PermitsAreConserved(actions);
  }

  /** A release that takes effect gives back the read's own permit, unless it steals. */
  lemma NoOverRelease(s: State, a: Action)
    requires Conserved(s) && Enabled(s, a) && Step(s, a).free > s.free
    ensures s.free < SLOTS && Step(s, a).free == s.free + 1
    ensures if Steals(s, a) then a.read !in Holders(s) && Holders(Step(s, a)) == Holders(s)
            else a.read in Holders(s) && Holders(Step(s, a)) == Holders(s) - {a.read}
  {
    HoldersNext(s, a);
    NextHolds(s.phases[a.read], a);
  }

  /** The steps left to a read, each of which only the read's own caller or a worker can take. */
  function Remaining(p: Phase): nat {
    match p
    case Acquired => 3
    case Queued => 2
    case Released => 0
    case Torn(_, _) => if Holding(p) then 1 else 0
    case _ => 1
  }

  /** A read that still holds its permit always has a step that brings it nearer to releasing it. */
  lemma HolderCanMove(s: State, r: Read) returns (a: Action)
    requires r in Holders(s)
    ensures Enabled(s, a) && a.read == r && r in Step(s, a).phases
      && Remaining(Step(s, a).phases[r]) < Remaining(s.phases[r])
  {
    a := match s.phases[r]
      case Acquired => Submit(r)
      case Queued => Start(r)
      case Running => Finish(r)
      case Revoked => ReleaseRevoked(r)
      case _ => ReleaseRefused(r);
  }

  // ---- both sides of a torn read release ----

  function TornRead(r: Read): seq<Action> {
    [SubmitTears(r), ReleaseRefused(r), Start(r), Finish(r)]
  }

  lemma RunOn(actions: seq<Action>, a: Action)
    ensures Run(actions + [a]) == if Enabled(Run(actions), a) then Step(Run(actions), a) else Run(actions)
  {
    assert (actions + [a])[..|actions|] == actions;
  }

  lemma TornCallerReleases(actions: seq<Action>, r: Read)
    requires r in Run(actions).phases && Run(actions).phases[r] == Acquired
    ensures var s := Run(actions);
      Run(actions + [SubmitTears(r)] + [ReleaseRefused(r)]) ==
        State(Freed(s.free), s.phases[r := Torn(true, InQueue)], s.released[r := Calls(s, r) + 1])
  {
    var s := Run(actions);
    RunOn(actions, SubmitTears(r));
    RunOn(actions + [SubmitTears(r)], ReleaseRefused(r));
    assert s.phases[r := Torn(false, InQueue)][r := Torn(true, InQueue)] == s.phases[r := Torn(true, InQueue)];
  }

  lemma TornWorkerReleases(actions: seq<Action>, r: Read)
    requires r in Run(actions).phases && Run(actions).phases[r] == Torn(true, InQueue)
    ensures var s := Run(actions);
      Run(actions + [Start(r)] + [Finish(r)]) ==
        State(Freed(s.free), s.phases[r := Torn(true, Ended)], s.released[r := Calls(s, r) + 1])
  {
    var s := Run(actions);
    RunOn(actions, Start(r));
    RunOn(actions + [Start(r)], Finish(r));
    assert s.phases[r := Torn(true, OnWorker)][r := Torn(true, Ended)] == s.phases[r := Torn(true, Ended)];
  }

  lemma TornReadInHalves(actions: seq<Action>, r: Read)
    ensures actions + TornRead(r) == actions + [SubmitTears(r)] + [ReleaseRefused(r)] + [Start(r)] + [Finish(r)]
  {
  }

  lemma TornReadReleasesTwice(actions: seq<Action>, r: Read)
    requires r in Run(actions).phases && Run(actions).phases[r] == Acquired
    ensures var s := Run(actions);
      Run(actions + TornRead(r)) ==
        State(Freed(Freed(s.free)), s.phases[r := Torn(true, Ended)], s.released[r := Calls(s, r) + 2])
  {
    var s := Run(actions);
    TornCallerReleases(actions, r);
    TornWorkerReleases(actions + [SubmitTears(r)] + [ReleaseRefused(r)], r);
    TornReadInHalves(actions, r);
    assert s.phases[r := Torn(true, InQueue)][r := Torn(true, Ended)] == s.phases[r := Torn(true, Ended)];
    assert s.released[r := Calls(s, r) + 1][r := Calls(s, r) + 2] == s.released[r := Calls(s, r) + 2];
  }

  lemma OneRead(a: Read)
    ensures Run([Acquire(a)]) == State(SLOTS - 1, map[a := Acquired], map[])
  {
    RunOn([], Acquire(a));
    assert [] + [Acquire(a)] == [Acquire(a)];
  }

  lemma TwoReads(a: Read, b: Read)
    requires a != b
    ensures Run([Acquire(a), Acquire(b)]) == State(SLOTS - 2, map[a := Acquired, b := Acquired], map[])
  {
    OneRead(a);
    RunOn([Acquire(a)], Acquire(b));
    assert [Acquire(a)] + [Acquire(b)] == [Acquire(a), Acquire(b)];
  }

  /** With another read under way, the torn read's second release frees a permit that is still held: nine in all. */
  lemma QueuedFailureOverReleases(a: Read, b: Read)
    requires a != b
    ensures var s := Run([Acquire(a), Acquire(b)] + TornRead(a));
      Doubled(s, a) && s.free == SLOTS && Holders(s) == {b} && !Conserved(s)
  {
    TwoReads(a, b);
    TornReadReleasesTwice([Acquire(a), Acquire(b)], a);
  }

  /** With no other read under way, the bound of the semaphore refuses the second release, and permits are conserved. */
  lemma LoneDoubleReleaseIsRefused(a: Read)
    ensures var s := Run([Acquire(a)] + TornRead(a));
      Doubled(s, a) && Calls(s, a) == 2 && s.free == SLOTS && Conserved(s)
  {
    OneRead(a);
    TornReadReleasesTwice([Acquire(a)], a);
    assert Holders(Run([Acquire(a)] + TornRead(a))) == {};
  }
}
