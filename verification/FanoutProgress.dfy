/**
 * Progress: a crashed worker blocks nobody for longer than its lease, and a
 * worker that keeps its claim can always end it.
 */
module FanoutProgress {
  import opened Options
  import opened FanoutModel
  import opened FanoutLinks
  import opened FanoutSafety
  import FanoutRuns

  /** Attempts that run and whose lease still does. */
  ghost function LiveAttempts(s: State): set<AttemptId> {
    set a | a in s.attempts && s.attempts[a].status == Running && !LeaseOver(s.attempts[a].lease, s.now)
  }

  /** Everything a claim demands of its caller and its plan; slots and other workers are not the caller's business. */
  ghost predicate MayClaim(s: State, task: TaskId, u: UnitId, pa: AttemptId, owner: Token, newId: AttemptId) {
    && FenceOk(s, task, pa, owner)
    && task in s.plans && u in s.units && u.parent == task
    && !s.plans[task].paused && s.units[u].status != Done
    && (u.GatherUnit? ==> ChildrenDone(s.units, task))
    && newId !in s.attempts
  }

  ghost predicate HeldLive(s: State, u: UnitId)
    requires u in s.units
  {
    s.units[u].active.Some? && s.units[u].active.value in LiveAttempts(s)
  }

  lemma LiveHoldsSlot(s: State, a: AttemptId)
    requires StateLinks(s) && a in LiveAttempts(s)
    ensures s.attempts[a].slot.Some? && s.attempts[a].slot.value < 4 && s.attempts[a].token.Some?
    ensures var slot := s.slots[s.attempts[a].slot.value]; slot.holder == Some(a) && !SlotFree(slot, s.now)
  {
    assert AttemptLinked(a, s.attempts[a], s.slots, s.units);
    assert SlotLinked(s.slots[s.attempts[a].slot.value], s.attempts[a].slot.value, s.attempts);
  }

  lemma FreeLeavesThree(s: State, n: nat)
    requires StateLinks(s) && n < 4 && SlotFree(s.slots[n], s.now)
    ensures |LiveAttempts(s)| < 4
  {
    forall a | a in LiveAttempts(s)
      ensures s.attempts[a].slot.Some? && s.attempts[a].slot.value in {0, 1, 2, 3} - {n}
      ensures s.slots[s.attempts[a].slot.value].holder == Some(a)
    {
      LiveHoldsSlot(s, a);
    }
    var rest: set<nat> := {0, 1, 2, 3} - {n};
    assert |rest| == 3;
    InjectionBound(LiveAttempts(s), map a | a in LiveAttempts(s) :: s.attempts[a].slot.value, rest);
  }

  lemma AtMostFourLive(s: State)
    requires StateLinks(s)
    ensures |LiveAttempts(s)| <= 4
  {
    AtMostFourRun(s);
    InjectionBound(LiveAttempts(s), map a | a in LiveAttempts(s) :: a, RunningAttempts(s));
  }

  lemma TakenMeansLive(s: State, n: nat)
    requires StateLinks(s) && n < 4 && !SlotFree(s.slots[n], s.now)
    ensures s.slots[n].holder.Some? && s.slots[n].holder.value in LiveAttempts(s)
      && s.attempts[s.slots[n].holder.value].slot == Some(n)
  {
    assert SlotLinked(s.slots[n], n, s.attempts);
  }

  lemma NoneFreeMeansFour(s: State)
    requires StateLinks(s) && forall n :: 0 <= n < 4 ==> !SlotFree(s.slots[n], s.now)
    ensures |LiveAttempts(s)| >= 4
  {
    var all: set<nat> := {0, 1, 2, 3};
    forall n | n in all
      ensures s.slots[n].holder.Some? && s.slots[n].holder.value in LiveAttempts(s)
        && s.attempts[s.slots[n].holder.value].slot == Some(n)
    {
      TakenMeansLive(s, n);
    }
    InjectionBound(all, map n | n in all :: s.slots[n].holder.value, LiveAttempts(s));
  }

  /** A slot can be had exactly when fewer than four attempts hold leases that still run. */
  lemma FreeSlotExactly(s: State)
    requires StateLinks(s)
    ensures FirstFree(s.slots, s.now).Some? <==> |LiveAttempts(s)| < 4
    ensures |LiveAttempts(s)| <= 4
  {
    AtMostFourLive(s);
    match FirstFree(s.slots, s.now)
    case Some(n) => FreeLeavesThree(s, n);
    case None => NoneFreeMeansFour(s);
  }

  lemma OpenSucceeds(s: State, u: UnitId, pa: AttemptId, owner: Token, newId: AttemptId, token: Token)
    requires LinksExcept(s.slots, s.attempts, s.units, Some(u)) && u in s.units && s.units[u].active.None?
    requires newId !in s.attempts
    ensures OpenAttempt(s, u, pa, owner, newId, token).Raised? <==> FirstFree(s.slots, s.now).None?
  {
    match FirstFree(s.slots, s.now)
    case None =>
    case Some(n) => if s.slots[n].holder.Some? { EvictEffect(s, u, n); }
  }

  lemma StaleIsReclaimed(s: State, task: TaskId, u: UnitId, pa: AttemptId, owner: Token, newId: AttemptId, token: Token)
    requires StateLinks(s) && MayClaim(s, task, u, pa, owner, newId) && s.units[u].active.Some? && !HeldLive(s, u)
    ensures ClaimUnit(s, task, u, pa, owner, newId, token).Committed? && |LiveAttempts(s)| < 4
  {
    assert UnitLinked(u, s.units[u], s.attempts);
    var id := s.units[u].active.value;
    EndAttemptEffect(s, id, Fenced, None);
    var n := s.attempts[id].slot.value;
    assert SlotLinked(s.slots[n], n, s.attempts) && AttemptLinked(id, s.attempts[id], s.slots, s.units);
    FreeLeavesThree(s, n);
    EndKeepsLinks(s.slots, s.attempts, s.units, None, id, Fenced, s.units[u].(active := None));
    var s1 := FenceAttempt(s, id, u);
    assert SlotFree(s1.slots[n], s1.now);
    OpenSucceeds(s1, u, pa, owner, newId, token);
  }

  lemma ClaimBlockedHere(s: State, task: TaskId, u: UnitId, pa: AttemptId, owner: Token, newId: AttemptId, token: Token)
    requires StateLinks(s) && MayClaim(s, task, u, pa, owner, newId)
    ensures ClaimUnit(s, task, u, pa, owner, newId, token).Raised? <==>
      if HeldLive(s, u) then s.attempts[s.units[u].active.value].owner != owner else |LiveAttempts(s)| == 4
  {
    assert UnitLinked(u, s.units[u], s.attempts);
    if HeldLive(s, u) {
      LiveHoldsSlot(s, s.units[u].active.value);
    } else if s.units[u].active.Some? {
      StaleIsReclaimed(s, task, u, pa, owner, newId, token);
    } else {
      FreeSlotExactly(s);
      OpenSucceeds(s, u, pa, owner, newId, token);
    }
  }

  /**
   * In every state of every run, a claim that its caller and its plan may make fails exactly when a live attempt of
   * another owner holds the unit, or none holds it and four others are live. Expired attempts never stand in the way,
   * of their own unit or of any other, and the slots are never found corrupt.
   */
  lemma ClaimBlockedExactly(tr: seq<State>, ops: seq<Op>, n: nat, task: TaskId, u: UnitId, pa: AttemptId, owner: Token,
                            newId: AttemptId, token: Token)
    requires Behaviour(tr, ops) && n <= |ops|
    requires MayClaim(tr[n], task, u, pa, owner, newId)
    ensures ClaimUnit(tr[n], task, u, pa, owner, newId, token).Raised? <==>
      if HeldLive(tr[n], u) then tr[n].attempts[tr[n].units[u].active.value].owner != owner
        else |LiveAttempts(tr[n])| == 4
  {
    FanoutRuns.RunInv(tr, ops, n);
    ClaimBlockedHere(tr[n], task, u, pa, owner, newId, token);
  }

  /**
   * The evidence has the unit's rows and the plan's schema, in an unreferenced artifact that this attempt is writing.
   */
  ghost predicate Committable(s: State, id: AttemptId, c: Candidate, ev: Evidence)
    requires id in s.attempts && s.attempts[id].unitId in s.units && s.attempts[id].unitId.parent in s.plans
  {
    var u := s.attempts[id].unitId;
    && ev.rows == s.units[u].end - s.units[u].start && ev.schema == s.plans[u.parent].schema
    && IsCurrentWriter(s, id, ev.uri, c) && forall r :: r in s.refs ==> r.uri != ev.uri
  }

  /** Nothing is left to check about a live gather's children. */
  ghost predicate InOrder(s: State, u: UnitId)
    requires u in s.units && u.parent in s.plans
  {
    && s.units[u].status == Claimed
    && (u.GatherUnit? ==>
      && ChildrenDone(s.units, u.parent)
      && s.units[u].end - s.units[u].start == s.plans[u.parent].rows)
  }

  lemma LiveIsInOrder(s: State, id: AttemptId, token: Token, owner: Token)
    requires Inv(s) && LiveClaim(s, id, token, owner)
    ensures InOrder(s, s.attempts[id].unitId)
  {
    var u := s.attempts[id].unitId;
    LiveClaimIsClaimed(s, id, token, owner);
    assert UnitPlanned(u, s.units[u], s.plans);
    assert PlanFormed(u.parent, s.plans[u.parent], s.units, s.parents);
    assert u.GatherUnit? ==> Started(s.units[u]) && ChildrenDone(s.units, u.parent);
  }

  lemma InOrderEnds(s: State, id: AttemptId, token: Token, owner: Token, c: Candidate, ev: Evidence, cancel: bool)
    requires LiveClaim(s, id, token, owner) && InOrder(s, s.attempts[id].unitId)
    requires 0 <= ev.rows && 0 < ev.bytes && 0 <= ev.dev && 0 <= ev.ino
    ensures Finish(s, id, token, owner, cancel).Committed?
    ensures CommitEvidence(s, id, token, owner, c, ev).Committed? <==> Committable(s, id, c, ev)
  {
  }

  /**
   * In every state of every run: giving up a live claim is never refused, and well-formed evidence is refused exactly
   * for its rows, its schema or its artifact. The other refusals of a commit, among them the gather's second look at
   * its children, can not occur.
   */
  lemma LiveClaimEnds(tr: seq<State>, ops: seq<Op>, n: nat, id: AttemptId, token: Token, owner: Token, c: Candidate,
                      ev: Evidence,
                      cancel: bool)
    requires Behaviour(tr, ops) && n <= |ops| && LiveClaim(tr[n], id, token, owner)
    requires 0 <= ev.rows && 0 < ev.bytes && 0 <= ev.dev && 0 <= ev.ino
    ensures Finish(tr[n], id, token, owner, cancel).Committed?
    ensures CommitEvidence(tr[n], id, token, owner, c, ev).Committed? <==> Committable(tr[n], id, c, ev)
  {
    FanoutRuns.RunInv(tr, ops, n);
    LiveIsInOrder(tr[n], id, token, owner);
    InOrderEnds(tr[n], id, token, owner, c, ev, cancel);
  }
}
