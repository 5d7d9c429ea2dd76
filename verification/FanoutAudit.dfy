/**
 * The restore audit: what it demands, and in which reachable states it passes.
 */
module FanoutAudit {
  import opened Options
  import opened Partition
  import opened FanoutModel
  import opened FanoutLinks
  import opened FanoutSafety
  import opened FanoutRuns

  function GathersOf(units: Units, t: TaskId): set<UnitId> {
    set u | u in units && u.parent == t && u.GatherUnit?
  }

  function ChildrenOf(units: Units, t: TaskId): set<UnitId> {
    set u | u in units && u.parent == t && u.ChildUnit?
  }

  function DoneOf(units: Units, t: TaskId): set<UnitId> {
    set u | u in units && u.parent == t && units[u].status == Done
  }

  /** What the audit demands of a done unit: evidence, a ready artifact, and exactly its own reference on it. */
  predicate DoneUnitAudited(u: UnitId, row: Unit, artifacts: Artifacts, refs: set<Reference>) {
    row.status == Done ==>
      && row.result.Some?
      && row.result.value.uri in artifacts && artifacts[row.result.value.uri].state == Ready
      && Reference(row.result.value.uri, UnitOwner(u)) in refs
      && forall r :: r in refs && r.uri == row.result.value.uri ==> r.owner == UnitOwner(u)
  }

  predicate PlanAudited(s: State, t: TaskId)
    requires t in s.plans
  {
    && t in s.parents && s.parents[t].checkpointKind
    && |GathersOf(s.units, t)| == 1 && |ChildrenOf(s.units, t)| == |s.plans[t].digest.ranges|
    && forall u :: u in s.units && u.parent == t ==>
         u.digest == s.plans[t].digest && DoneUnitAudited(u, s.units[u], s.artifacts, s.refs)
  }

  /** `restore_audit` reports instead of raising. */
  ghost predicate AuditPasses(s: State) {
    && |s.slots| == SLOT_COUNT
    && (forall t :: t in s.plans ==> PlanAudited(s, t))
    && (forall r :: r in s.refs && r.owner.UnitOwner? ==>
          r.owner.unitId in s.units && r.owner.unitId.parent in s.plans && s.units[r.owner.unitId].status == Done)
  }

  /** The reference does not sit on `u`'s committed artifact, unless it is a unit's own. */
  ghost predicate NotOn(r: Reference, row: Unit) {
    row.status == Done && row.result.Some? && r.uri == row.result.value.uri ==> r.owner.UnitOwner?
  }

  /** Nobody but a unit holds a reference on a committed fan-out artifact. */
  ghost predicate SoleOwners(units: Units, refs: set<Reference>) {
    forall u, r :: u in units && r in refs ==> NotOn(r, units[u])
  }

  lemma {:induction false} ChildSetSize(units: Units, t: TaskId, d: PlanDigest, n: nat)
    requires forall i :: 0 <= i < n ==> ChildUnit(t, d, i) in units
    ensures |set i | 0 <= i < n :: ChildUnit(t, d, i)| == n
  {
    if n > 0 {
      ChildSetSize(units, t, d, n - 1);
      var small := set i | 0 <= i < n - 1 :: ChildUnit(t, d, i);
      assert (set i | 0 <= i < n :: ChildUnit(t, d, i)) == small + {ChildUnit(t, d, n - 1)};
    }
  }

  lemma UnitSetComplete(s: State, t: TaskId)
    requires Planned(s.units, s.plans, s.parents) && t in s.plans
    ensures |GathersOf(s.units, t)| == 1 && |ChildrenOf(s.units, t)| == |s.plans[t].digest.ranges|
  {
    var d := s.plans[t].digest;
    assert PlanFormed(t, s.plans[t], s.units, s.parents);
    forall u | u in s.units && u.parent == t
      ensures u == GatherUnit(t, d) || (u.ChildUnit? && u == ChildUnit(t, d, u.part) && u.part < |d.ranges|)
    {
      assert UnitPlanned(u, s.units[u], s.plans);
    }
    assert GathersOf(s.units, t) == {GatherUnit(t, d)};
    ChildSetSize(s.units, t, d, |d.ranges|);
    assert ChildrenOf(s.units, t) == set i | 0 <= i < |d.ranges| :: ChildUnit(t, d, i);
  }

  lemma EvidencedAudits(s: State, u: UnitId)
    requires Evidenced(s.units, s.artifacts, s.refs) && SoleOwners(s.units, s.refs) && u in s.units
    ensures DoneUnitAudited(u, s.units[u], s.artifacts, s.refs)
  {
    assert UnitEvidenced(u, s.units[u], s.artifacts, s.refs);
    if s.units[u].status == Done {
      var uri := s.units[u].result.value.uri;
      forall r | r in s.refs && r.uri == uri ensures r.owner == UnitOwner(u) {
        assert RefOwned(r, s.units);
        assert Owns(s.units, u, uri) && Owns(s.units, r.owner.unitId, uri);
      }
    }
  }

  lemma PlansAudited(s: State)
    requires Planned(s.units, s.plans, s.parents) && Evidenced(s.units, s.artifacts, s.refs)
      && SoleOwners(s.units, s.refs)
    ensures forall t :: t in s.plans ==> PlanAudited(s, t)
  {
    forall t | t in s.plans ensures PlanAudited(s, t) {
      assert PlanFormed(t, s.plans[t], s.units, s.parents);
      UnitSetComplete(s, t);
      forall u | u in s.units && u.parent == t
        ensures u.digest == s.plans[t].digest && DoneUnitAudited(u, s.units[u], s.artifacts, s.refs)
      {
        assert UnitPlanned(u, s.units[u], s.plans);
        EvidencedAudits(s, u);
      }
    }
  }

  lemma AuditExactlyHere(r: State)
    requires Links(r.slots, r.attempts, r.units) && Planned(r.units, r.plans, r.parents)
      && Evidenced(r.units, r.artifacts, r.refs)
    ensures AuditPasses(r) <==> SoleOwners(r.units, r.refs)
  {
    if SoleOwners(r.units, r.refs) {
      PlansAudited(r);
      forall ref | ref in r.refs && ref.owner.UnitOwner?
        ensures ref.owner.unitId in r.units && ref.owner.unitId.parent in r.plans
          && r.units[ref.owner.unitId].status == Done
      {
        assert RefOwned(ref, r.units);
        assert UnitPlanned(ref.owner.unitId, r.units[ref.owner.unitId], r.plans);
      }
    }
    if AuditPasses(r) {
      forall u, ref | u in r.units && ref in r.refs ensures NotOn(ref, r.units[u]) {
        assert UnitPlanned(u, r.units[u], r.plans);
        assert PlanAudited(r, u.parent);
        assert DoneUnitAudited(u, r.units[u], r.artifacts, r.refs);
      }
    }
  }

  /**
   * In every reachable state the audit passes exactly when no outside reference sits on a committed fan-out artifact.
   */
  lemma AuditExactly(tr: seq<State>, ops: seq<Op>, n: nat)
    requires Behaviour(tr, ops) && n <= |ops|
    ensures AuditPasses(tr[n]) <==> SoleOwners(tr[n].units, tr[n].refs)
  {
    RunKeeps(tr, ops, n);
    AuditExactlyHere(tr[n]);
  }

  /** An outside reference that is new in `s'` is not on a committed fan-out artifact. */
  ghost predicate NewElsewhere(s: State, s': State) {
    forall r: Reference, u :: r in s'.refs && r !in s.refs && u in s'.units ==> NotOn(r, s'.units[u])
  }

  /** Nobody takes an outside reference on a committed fan-out artifact; others may be taken and dropped at any time. */
  ghost predicate NoNewReaders(tr: seq<State>) {
    forall i :: 0 <= i < |tr| - 1 ==> NewElsewhere(tr[i], tr[i + 1])
  }

  lemma SoleStep(s: State, s': State, gone: set<TaskId>)
    requires SoleOwners(s.units, s.refs) && Monotone(s, s', gone)
    requires NewElsewhere(s, s')
    ensures SoleOwners(s'.units, s'.refs)
  {
    forall u, r | u in s'.units && r in s'.refs ensures NotOn(r, s'.units[u]) {
      if r in s.refs && r.owner.OtherOwner? && s'.units[u].status == Done && u in s.units && s.units[u].status == Done {
        assert RowStep(s.units[u], s'.units[u]) && NotOn(r, s.units[u]);
      }
    }
  }

  /** Plan, claim, heartbeat, commit, end, retry and purge alone never make the audit raise. */
  lemma {:induction false} AuditNeverRaises(tr: seq<State>, ops: seq<Op>, n: nat)
    requires Behaviour(tr, ops) && n <= |ops| && NoNewReaders(tr)
    ensures SoleOwners(tr[n].units, tr[n].refs) && AuditPasses(tr[n])
  {
    AuditExactly(tr, ops, n);
    if n > 0 {
      AuditNeverRaises(tr, ops, n - 1);
      RunKeeps(tr, ops, n);
      assert Monotone(tr[n - 1], tr[n - 1 + 1], Gone(ops[n - 1]));
      assert NewElsewhere(tr[n - 1], tr[n - 1 + 1]);
      SoleStep(tr[n - 1], tr[n], Gone(ops[n - 1]));
    }
  }

  function LeasedTo(s: State, u: UnitId, reader: string): State
    requires u in s.units && s.units[u].result.Some?
  {
    s.(refs := s.refs + {Reference(s.units[u].result.value.uri, OtherOwner("read_lease", reader))})
  }

  /** But a reader lease on a committed artifact, such as the gather takes while it reads a child, makes it raise. */
  lemma ReaderLeaseBreaksAudit(s: State, u: UnitId, reader: string)
    requires Inv(s) && u in s.units && s.units[u].status == Done
    ensures s.units[u].result.Some?
    ensures Environment(s, LeasedTo(s, u, reader)) && !AuditPasses(LeasedTo(s, u, reader))
  {
    assert UnitEvidenced(u, s.units[u], s.artifacts, s.refs);
    var lease := Reference(s.units[u].result.value.uri, OtherOwner("read_lease", reader));
    LeaseKeepsEvidenced(s.units, s.artifacts, s.refs, lease);
    AuditExactlyHere(s.(refs := s.refs + {lease}));
    assert !NotOn(lease, s.units[u]);
  }

  lemma LeaseKeepsEvidenced(units: Units, artifacts: Artifacts, refs: set<Reference>, lease: Reference)
    requires Evidenced(units, artifacts, refs) && lease.owner.OtherOwner?
    ensures Evidenced(units, artifacts, refs + {lease})
  {
    forall v | v in units ensures UnitEvidenced(v, units[v], artifacts, refs + {lease}) {
      assert UnitEvidenced(v, units[v], artifacts, refs);
    }
    forall r | r in refs + {lease} ensures RefOwned(r, units) {
      if r in refs { assert RefOwned(r, units); }
    }
  }

  // ---- a run in which it happens ----

  /** The plan that is made for a committed checkpoint, and its first child. */
  function DigestFor(c: Checkpoint): PlanDigest {
    PlanDigest(c.content, c.schema, OPERATION_ID, PartitionRanges(|c.content|))
  }

  function FirstChild(s: State, task: TaskId): UnitId
    requires task in s.parents && s.parents[task].checkpoint.Some?
  {
    ChildUnit(task, DigestFor(s.parents[task].checkpoint.value), 0)
  }

  /** Plan a checkpoint for the first time: its first child is pending. */
  lemma FirstPlan(s: State, task: TaskId, pa: AttemptId, owner: Token) returns (s': State)
    requires Initial(s) && FenceOk(s, task, pa, owner) && s.parents[task].checkpoint.Some?
    ensures s' == Apply(s, DoPlan(task, pa, owner, OPERATION_ID, REQUESTED_PARTITIONS))
    ensures var u := FirstChild(s, task);
      && s' == s.(plans := s'.plans, units := s'.units)
      && task in s'.plans && !s'.plans[task].paused && s'.plans[task].schema == s.parents[task].checkpoint.value.schema
      && u in s'.units && s'.units[u] == Unit(Pending, u.digest.ranges[0].start, u.digest.ranges[0].end, None, None)
      && (forall v :: v in s'.units ==> s'.units[v].status == Pending)
  {
    var d := DigestFor(s.parents[task].checkpoint.value);
    s' := CreateOrReopen(s, task, pa, owner, OPERATION_ID, REQUESTED_PARTITIONS).state;
    assert ChildUnit(task, d, 0) in ChildRows(task, d, |d.ranges|);
    assert forall v :: v in NewUnits(task, d) ==> NewUnits(task, d)[v].status == Pending;
  }

  /** Claim a pending child while the first slot is free. */
  lemma FirstClaim(s: State, task: TaskId, u: UnitId, pa: AttemptId, owner: Token, id: AttemptId, token: Token)
    returns (s': State)
    requires FenceOk(s, task, pa, owner) && task in s.plans && !s.plans[task].paused
    requires u in s.units && u.ChildUnit? && u.parent == task && s.units[u].status == Pending && s.units[u].active.None?
    requires |s.slots| == SLOT_COUNT && s.slots[0] == FREE_SLOT && id !in s.attempts
    ensures s' == Apply(s, DoClaim(task, u, pa, owner, id, token)) == Occupy(s, u, pa, owner, id, token, 0)
    ensures LiveClaim(s', id, token, owner)
  {
    s' := Occupy(s, u, pa, owner, id, token, 0);
    assert FirstFree(s.slots, s.now) == Some(0);
  }

  /** The artifact that an attempt starts to write. */
  lemma StartWriting(s: State, id: AttemptId, token: Token, uri: Uri) returns (s': State)
    requires uri !in s.artifacts && !Referenced(s, uri)
    ensures s' == s.(artifacts := s'.artifacts) && s' == Apply(s, DoElse(s'))
    ensures IsCurrentWriter(s', id, uri, Candidate("results", token, None))
  {
    s' := s.(artifacts := s.artifacts[uri := Artifact("results", Writing, Some((id, token)), None, [])]);
    assert Environment(s, s');
  }

  /** Commit a claimed child. */
  lemma FirstCommit(s: State, u: UnitId, id: AttemptId, token: Token, owner: Token, ev: Evidence) returns (s': State)
    requires LiveClaim(s, id, token, owner) && s.attempts[id].unitId == u && u.ChildUnit?
    requires s.units[u].status == Claimed && ev.rows == s.units[u].end - s.units[u].start >= 0
    requires ev.bytes > 0 && ev.dev >= 0 && ev.ino >= 0 && ev.schema == s.plans[u.parent].schema
    requires IsCurrentWriter(s, id, ev.uri, Candidate("results", token, None)) && !Referenced(s, ev.uri)
    ensures s' == Apply(s, DoCommit(id, token, owner, Candidate("results", token, None), ev))
    ensures s'.refs == s.refs + {Reference(ev.uri, UnitOwner(u))}
    ensures s'.units == s.units[u := s.units[u].(status := Done, result := Some(ev), active := None)]
  {
    var c := Candidate("results", token, None);
    assert !exists r :: r in s.refs && r.uri == ev.uri;
    s' := EndAttempt(Seal(s, u, ev), id, AttemptDone);
    assert CommitEvidence(s, id, token, owner, c, ev) == Committed(s', Doc(s', u.parent));
  }

  /** One unit is done, and only it refers to its artifact. */
  ghost predicate OneDone(s: State, u: UnitId, uri: Uri) {
    && u in s.units && s.units[u].status == Done && s.units[u].result.Some? && s.units[u].result.value.uri == uri
    && (forall v :: v in s.units && s.units[v].status == Done ==> v == u)
    && (forall r :: r in s.refs && r.uri == uri ==> r.owner.UnitOwner?)
  }

  lemma LongerRun(tr: seq<State>, ops: seq<Op>, op: Op, s: State)
    requires Behaviour(tr, ops) && s == Apply(tr[|ops|], op)
    ensures Behaviour(tr + [s], ops + [op])
  {
    var longer, more := tr + [s], ops + [op];
    forall i | 0 <= i < |more| ensures longer[i + 1] == Apply(longer[i], more[i]) {
      if i < |ops| { assert tr[i + 1] == Apply(tr[i], ops[i]); }
    }
  }

  /** Plan, and claim the first child. */
  lemma ClaimingRun(s: State, task: TaskId, pa: AttemptId, owner: Token, id: AttemptId, token: Token)
    returns (tr: seq<State>, ops: seq<Op>)
    requires Initial(s) && FenceOk(s, task, pa, owner) && s.parents[task].checkpoint.Some?
    ensures Behaviour(tr, ops) && tr[0] == s && |ops| == 2
    ensures var u, claimed := FirstChild(s, task), tr[2];
      && LiveClaim(claimed, id, token, owner) && claimed.attempts[id].unitId == u
      && claimed.units[u].status == Claimed && claimed.units[u].start <= claimed.units[u].end
      && claimed.plans[task].schema == u.digest.schema
      && (forall v :: v in claimed.units ==> claimed.units[v].status != Done)
      && claimed.artifacts == s.artifacts && claimed.refs == s.refs
  {
    var u := FirstChild(s, task);
    var planned := FirstPlan(s, task, pa, owner);
    var claimed := FirstClaim(planned, task, u, pa, owner, id, token);
    tr, ops := [s], [];
    LongerRun(tr, ops, DoPlan(task, pa, owner, OPERATION_ID, REQUESTED_PARTITIONS), planned);
    tr, ops := tr + [planned], ops + [DoPlan(task, pa, owner, OPERATION_ID, REQUESTED_PARTITIONS)];
    LongerRun(tr, ops, DoClaim(task, u, pa, owner, id, token), claimed);
    tr, ops := tr + [claimed], ops + [DoClaim(task, u, pa, owner, id, token)];
  }

  /** Write and commit a claimed child, while no unit is done. */
  lemma CommittingRun(tr: seq<State>, ops: seq<Op>, u: UnitId, owner: Token, id: AttemptId, token: Token, uri: Uri,
                      content: seq<Row>) returns (tr': seq<State>, ops': seq<Op>)
    requires Behaviour(tr, ops)
    requires var claimed := tr[|ops|];
      && LiveClaim(claimed, id, token, owner) && claimed.attempts[id].unitId == u && u.ChildUnit?
      && claimed.units[u].status == Claimed && claimed.units[u].start <= claimed.units[u].end
      && (forall v :: v in claimed.units ==> claimed.units[v].status != Done)
      && uri !in claimed.artifacts && !Referenced(claimed, uri)
    ensures Behaviour(tr', ops') && tr'[0] == tr[0] && |ops'| == |ops| + 2
    ensures OneDone(tr'[|ops'|], u, uri)
  {
    var claimed, c := tr[|ops|], Candidate("results", token, None);
    var writing := StartWriting(claimed, id, token, uri);
    var row := writing.units[u];
    var ev := Evidence(uri, row.end - row.start, 1, content, writing.plans[u.parent].schema, 0, 0);
    var done := FirstCommit(writing, u, id, token, owner, ev);
    LongerRun(tr, ops, DoElse(writing), writing);
    tr', ops' := tr + [writing], ops + [DoElse(writing)];
    LongerRun(tr', ops', DoCommit(id, token, owner, c, ev), done);
    tr', ops' := tr' + [done], ops' + [DoCommit(id, token, owner, c, ev)];
  }

  lemma OneDoneIsSole(s: State, u: UnitId, uri: Uri)
    requires OneDone(s, u, uri)
    ensures SoleOwners(s.units, s.refs)
  {
  }

  lemma OneDoneAudits(s: State, u: UnitId, uri: Uri)
    requires Inv(s) && OneDone(s, u, uri)
    ensures AuditPasses(s)
  {
    OneDoneIsSole(s, u, uri);
    AuditExactlyHere(s);
  }

  lemma LeaseAfterRun(tr: seq<State>, ops: seq<Op>, u: UnitId, uri: Uri, reader: string)
    requires Behaviour(tr, ops) && OneDone(tr[|ops|], u, uri)
    ensures AuditPasses(tr[|ops|])
    ensures Environment(tr[|ops|], LeasedTo(tr[|ops|], u, reader)) && !AuditPasses(LeasedTo(tr[|ops|], u, reader))
  {
    RunInv(tr, ops, |ops|);
    OneDoneAudits(tr[|ops|], u, uri);
    ReaderLeaseBreaksAudit(tr[|ops|], u, reader);
  }

  lemma ElseApplies(s: State, s': State)
    requires Environment(s, s')
    ensures s' == Apply(s, DoElse(s'))
  {
  }

  /** Lease the result of the one unit that is done. */
  lemma LeasingRun(tr: seq<State>, ops: seq<Op>, u: UnitId, uri: Uri, reader: string) returns (leased: State)
    requires Behaviour(tr, ops) && OneDone(tr[|ops|], u, uri)
    ensures Behaviour(tr + [leased], ops + [DoElse(leased)]) && AuditPasses(tr[|ops|]) && !AuditPasses(leased)
  {
    leased := LeasedTo(tr[|ops|], u, reader);
    LeaseAfterRun(tr, ops, u, uri, reader);
    ElseApplies(tr[|ops|], leased);
    LongerRun(tr, ops, DoElse(leased), leased);
  }

  /**
   * From any start with a committed checkpoint: plan, claim, write and commit its first child, and lease the result to
   * a reader. The audit passes before the lease, and raises after it.
   */
  lemma SomeRunBreaksAudit(s: State, task: TaskId, pa: AttemptId, owner: Token, id: AttemptId, token: Token, uri: Uri,
                           content: seq<Row>, reader: string) returns (tr: seq<State>, ops: seq<Op>)
    requires Initial(s) && FenceOk(s, task, pa, owner) && s.parents[task].checkpoint.Some?
    requires uri !in s.artifacts && !Referenced(s, uri)
    ensures Behaviour(tr, ops) && tr[0] == s && |ops| == 5
    ensures AuditPasses(tr[4]) && !AuditPasses(tr[5])
  {
    var u := FirstChild(s, task);
    var claiming, claims := ClaimingRun(s, task, pa, owner, id, token);
    var done, commits := CommittingRun(claiming, claims, u, owner, id, token, uri, content);
    var leased := LeasingRun(done, commits, u, uri, reader);
    tr, ops := done + [leased], commits + [DoElse(leased)];
  }
}
