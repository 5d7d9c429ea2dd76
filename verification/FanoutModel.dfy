/**
 * The fan-out tables as one value, and every transaction as a function on it.
 *
 * Each function is one `with session()` body: it either finishes (`Committed`,
 * with the new state) or raises (`Raised`), and a raised transaction is rolled
 * back. Digests and id hashes are injective, so ids are built from what they hash.
 */
module FanoutModel {
  import opened Options
  import opened Partition

  type TaskId = nat
  type AttemptId = nat
  type Token = nat
  type Uri = nat
  type Time = int

  datatype Row = Row(cells: seq<string>)

  const LEASE_SECONDS: Time := 15
  const SLOT_COUNT: nat := 4
  const OPERATION_ID: string := "identity_projection_v1"
  const REQUESTED_PARTITIONS: int := 4

  // ---- durable rows ----

  datatype TaskStatus = TaskQueued | TaskRunning | TaskDone | TaskFailed | TaskCancelled
  datatype Checkpoint = Checkpoint(id: string, content: seq<Row>, schema: string)
  /** A durable task; `checkpointKind` says its kind is one that owns a checkpoint. */
  datatype Parent = Parent(checkpointKind: bool, status: TaskStatus, cancelRequested: bool,
    checkpoint: Option<Checkpoint>)
  datatype ParentAttempt = ParentAttempt(task: TaskId, running: bool, owner: Option<Token>, lease: Option<Time>)

  datatype PlanDigest = PlanDigest(content: seq<Row>, schema: string, operation: string, ranges: seq<Range>)
  datatype UnitId =
    | ChildUnit(parent: TaskId, digest: PlanDigest, part: nat)
    | GatherUnit(parent: TaskId, digest: PlanDigest)

  datatype Plan = Plan(digest: PlanDigest, checkpointId: string, rows: nat, schema: string, creator: AttemptId,
    paused: bool)

  datatype UnitStatus = Pending | Claimed | Done | Failed | Cancelled
  datatype Evidence = Evidence(uri: Uri, rows: int, bytes: int, content: seq<Row>, schema: string, dev: int, ino: int)
  datatype Unit = Unit(status: UnitStatus, start: nat, end: nat, result: Option<Evidence>, active: Option<AttemptId>)

  datatype AttemptStatus = Running | AttemptDone | AttemptFailed | AttemptCancelled | Fenced
  datatype Attempt = Attempt(unitId: UnitId, parentAttempt: AttemptId, status: AttemptStatus, owner: Token,
                             token: Option<Token>, slot: Option<nat>, lease: Option<Time>)
  datatype Slot = Slot(holder: Option<AttemptId>, token: Option<Token>, lease: Option<Time>)

  datatype ArtifactState = Writing | Ready | Deleting
  datatype Artifact = Artifact(namespace: string, state: ArtifactState, writer: Option<(AttemptId, Token)>,
    lock: Option<Token>, content: seq<Row>)
  /** `UnitOwner` covers both fan-out owner kinds; anything else is a reader lease or another subsystem. */
  datatype Owner = UnitOwner(unitId: UnitId) | OtherOwner(kind: string, key: string)
  datatype Reference = Reference(uri: Uri, owner: Owner)

  datatype State = State(
    now: Time,
    parents: map<TaskId, Parent>,
    parentAttempts: map<AttemptId, ParentAttempt>,
    plans: map<TaskId, Plan>,
    units: map<UnitId, Unit>,
    attempts: map<AttemptId, Attempt>,
    slots: seq<Slot>,
    artifacts: map<Uri, Artifact>,
    refs: set<Reference>)

  datatype Error =
    | StaleParent | NoCommittedCheckpoint | UnsupportedContract | PlanConflict | NoPlan | NotInPlan
    | ClaimsPaused | AlreadyDone | GatherTooEarly | HeldElsewhere | SlotsCorrupt | NoFreeSlot | DuplicateId
    | NoAttempt | StaleClaim | InvalidEvidence | ReplayChanged | WrongRows | WrongSchema | ChildrenMissing
    | NotTheWriter | AlreadyReferenced

  datatype Outcome<+A> = Committed(state: State, value: A) | Raised(error: Error)

  const FREE_SLOT := Slot(None, None, None)

  // ---- shared pieces ----

  predicate FenceOk(s: State, task: TaskId, pa: AttemptId, owner: Token) {
    && task in s.parents && pa in s.parentAttempts
    && s.parents[task].checkpointKind
    && s.parentAttempts[pa].task == task
    && s.parents[task].status == TaskRunning && !s.parents[task].cancelRequested
    && s.parentAttempts[pa].running && s.parentAttempts[pa].owner == Some(owner)
    && s.parentAttempts[pa].lease.Some? && s.parentAttempts[pa].lease.value > s.now
  }

  /** What callers see of a plan: the unit rows of one parent. */
  datatype PlanDoc = PlanDoc(task: TaskId, plan: Plan, units: map<UnitId, Unit>)

  function Doc(s: State, task: TaskId): PlanDoc
    requires task in s.plans
  {
    PlanDoc(task, s.plans[task], UnitsOf(s.units, task))
  }

  function UnitsOf(units: map<UnitId, Unit>, task: TaskId): map<UnitId, Unit> {
    map u | u in units && u.parent == task :: units[u]
  }

  predicate LeaseOver(lease: Option<Time>, now: Time) {
    lease.None? || lease.value <= now
  }

  predicate ChildrenDone(units: map<UnitId, Unit>, task: TaskId) {
    && (exists u :: u in units && u.parent == task && u.ChildUnit?)
    && forall u :: u in units && u.parent == task && u.ChildUnit? ==> units[u].status == Done
  }

  /** `_release_slot`: the slot is cleared only if it still belongs to this attempt and token. */
  function ReleaseSlot(s: State, id: AttemptId): State
    requires id in s.attempts
  {
    var a := s.attempts[id];
    if a.slot.None? then s
    else
      var n := a.slot.value;
      var slots := if n < |s.slots| && s.slots[n].holder == Some(id) && s.slots[n].token == a.token
                   then s.slots[n := FREE_SLOT] else s.slots;
      s.(slots := slots, attempts := s.attempts[id := a.(token := None, slot := None, lease := None)])
  }

  /** An attempt leaves `running`: new status, slot given back. */
  function EndAttempt(s: State, id: AttemptId, status: AttemptStatus): State
    requires id in s.attempts
  {
    ReleaseSlot(s.(attempts := s.attempts[id := s.attempts[id].(status := status)]), id)
  }

  function WithUnit(s: State, u: UnitId, row: Unit): State {
    s.(units := s.units[u := row])
  }

  // ---- plans ----

  function ChildRows(task: TaskId, d: PlanDigest, n: nat): map<UnitId, Unit>
    requires n <= |d.ranges|
  {
    map i | 0 <= i < n :: ChildUnit(task, d, i) := Unit(Pending, d.ranges[i].start, d.ranges[i].end, None, None)
  }

  function NewUnits(task: TaskId, d: PlanDigest): map<UnitId, Unit> {
    ChildRows(task, d, |d.ranges|) + map[GatherUnit(task, d) := Unit(Pending, 0, |d.content|, None, None)]
  }

  function CreateOrReopen(s: State, task: TaskId, pa: AttemptId, owner: Token, operation: string,
                          partitions: int): Outcome<PlanDoc> {
    if operation != OPERATION_ID || partitions != REQUESTED_PARTITIONS then Raised(UnsupportedContract)
    else if !FenceOk(s, task, pa, owner) then Raised(StaleParent)
    else if s.parents[task].checkpoint.None? then Raised(NoCommittedCheckpoint)
    else
      var c := s.parents[task].checkpoint.value;
      var d := PlanDigest(c.content, c.schema, operation, PartitionRanges(|c.content|));
      if task in s.plans then
        var p := s.plans[task];
        if p.digest != d || p.checkpointId != c.id || p.rows != |c.content| || p.schema != c.schema
        then Raised(PlanConflict)
        else Committed(s, Doc(s, task))
      else
        var rows := NewUnits(task, d);
        if exists u :: u in rows && u in s.units then Raised(DuplicateId)
        else
          var s' := s.(plans := s.plans[task := Plan(d, c.id, |c.content|, c.schema, pa, false)],
                       units := s.units + rows);
          Committed(s', Doc(s', task))
  }

  function SetPaused(s: State, task: TaskId, pa: AttemptId, owner: Token, paused: bool): Outcome<PlanDoc> {
    if !FenceOk(s, task, pa, owner) then Raised(StaleParent)
    else if task !in s.plans then Raised(NoPlan)
    else
      var s' := s.(plans := s.plans[task := s.plans[task].(paused := paused)]);
      Committed(s', Doc(s', task))
  }

  // ---- claims ----

  predicate SlotFree(slot: Slot, now: Time) {
    slot.holder.None? || LeaseOver(slot.lease, now)
  }

  function FirstFree(slots: seq<Slot>, now: Time): (r: Option<nat>)
    ensures r.Some? ==> r.value < |slots| && SlotFree(slots[r.value], now)
    ensures r.Some? ==> forall i :: 0 <= i < r.value ==> !SlotFree(slots[i], now)
    ensures r.None? ==> forall i :: 0 <= i < |slots| ==> !SlotFree(slots[i], now)
  {
    if slots == [] then None
    else if SlotFree(slots[0], now) then Some(0)
    else match FirstFree(slots[1..], now) case None => None case Some(i) => Some(i + 1)
  }

  /** Fencing an attempt also detaches it from the unit that names it as active. */
  function FenceAttempt(s: State, id: AttemptId, u: UnitId): State
    requires id in s.attempts && u in s.units
  {
    WithUnit(EndAttempt(s, id, Fenced), u, s.units[u].(active := None))
  }

  /** Taking over a slot whose lease is over: its running holder is fenced, and its unit is pending again. */
  function Evict(s: State, id: AttemptId): State {
    if id !in s.attempts || s.attempts[id].status != Running then s
    else
      var u := s.attempts[id].unitId;
      var s' := EndAttempt(s, id, Fenced);
      if u !in s'.units || s'.units[u].active != Some(id) then s'
      else WithUnit(s', u,
        s'.units[u].(active := None, status := if s'.units[u].status == Claimed then Pending else s'.units[u].status))
  }

  function ClaimUnit(s: State, task: TaskId, u: UnitId, pa: AttemptId, owner: Token, newId: AttemptId,
                     token: Token): Outcome<AttemptId> {
    if !FenceOk(s, task, pa, owner) then Raised(StaleParent)
    else if task !in s.plans || u !in s.units || u.parent != task then Raised(NotInPlan)
    else if s.plans[task].paused || s.parents[task].cancelRequested then Raised(ClaimsPaused)
    else if s.units[u].status == Done then Raised(AlreadyDone)
    else if u.GatherUnit? && !ChildrenDone(s.units, task) then Raised(GatherTooEarly)
    else if s.units[u].active.Some? && s.units[u].active.value in s.attempts
      && s.attempts[s.units[u].active.value].status == Running then
      var id := s.units[u].active.value;
      var a := s.attempts[id];
      if !LeaseOver(a.lease, s.now) then
        if a.owner == owner && a.token.Some? then Committed(s, id) else Raised(HeldElsewhere)
      else OpenAttempt(FenceAttempt(s, id, u), u, pa, owner, newId, token)
    else OpenAttempt(s, u, pa, owner, newId, token)
  }

  function OpenAttempt(s: State, u: UnitId, pa: AttemptId, owner: Token, newId: AttemptId,
                       token: Token): Outcome<AttemptId>
    requires u in s.units
  {
    if |s.slots| != SLOT_COUNT then Raised(SlotsCorrupt)
    else match FirstFree(s.slots, s.now)
      case None => Raised(NoFreeSlot)
      case Some(n) =>
        var s1 := if s.slots[n].holder.Some? then Evict(s, s.slots[n].holder.value) else s;
        if newId in s1.attempts then Raised(DuplicateId)
        else Committed(Occupy(s1, u, pa, owner, newId, token, n), newId)
  }

  function Occupy(s: State, u: UnitId, pa: AttemptId, owner: Token, newId: AttemptId, token: Token, n: nat): State
    requires u in s.units && n < |s.slots|
  {
    var until := s.now + LEASE_SECONDS;
    s.(attempts := s.attempts[newId := Attempt(u, pa, Running, owner, Some(token), Some(n), Some(until))],
       slots := s.slots[n := Slot(Some(newId), Some(token), Some(until))],
       units := s.units[u := s.units[u].(status := Claimed, active := Some(newId))])
  }

  function Heartbeat(s: State, id: AttemptId, token: Token, owner: Token): Outcome<bool> {
    if id !in s.attempts then Committed(s, false)
    else
      var a := s.attempts[id];
      if a.status != Running || a.owner != owner || a.token != Some(token) || a.slot.None? || LeaseOver(a.lease, s.now)
      then Committed(s, false)
      else if a.slot.value >= |s.slots| || s.slots[a.slot.value].holder != Some(id)
        || s.slots[a.slot.value].token != a.token
      then Committed(s, false)
      else
        var until := Some(s.now + LEASE_SECONDS);
        Committed(s.(attempts := s.attempts[id := a.(lease := until)],
                     slots := s.slots[a.slot.value := s.slots[a.slot.value].(lease := until)]), true)
  }

  /** `_live_claim`: the attempt still owns its slot, its lease runs, and the plan is neither paused nor cancelled. */
  predicate LiveClaim(s: State, id: AttemptId, token: Token, owner: Token) {
    && id in s.attempts
    && var a := s.attempts[id];
       && a.unitId in s.units && a.unitId.parent in s.plans && a.unitId.parent in s.parents
       && a.status == Running && a.owner == owner && a.token == Some(token)
       && !LeaseOver(a.lease, s.now) && a.slot.Some?
       && !s.plans[a.unitId.parent].paused && !s.parents[a.unitId.parent].cancelRequested
       && a.slot.value < |s.slots| && s.slots[a.slot.value].holder == Some(id) && s.slots[a.slot.value].token == a.token
  }

  /** `_finish`, for `failed` and `cancelled`. */
  function Finish(s: State, id: AttemptId, token: Token, owner: Token, cancel: bool): Outcome<AttemptId> {
    if id !in s.attempts then Raised(NoAttempt)
    else if !LiveClaim(s, id, token, owner) then Raised(StaleClaim)
    else
      var u := s.attempts[id].unitId;
      if s.units[u].status == Done then Raised(AlreadyDone)
      else
        var s' := EndAttempt(s, id, if cancel then AttemptCancelled else AttemptFailed);
        Committed(WithUnit(s', u, s'.units[u].(status := if cancel then Cancelled else Failed, active := None)), id)
  }

  // ---- evidence ----

  /** What the committer presents as the artifact it wrote. */
  datatype Candidate = Candidate(namespace: string, writerToken: Token, lock: Option<Token>)

  predicate IsCurrentWriter(s: State, id: AttemptId, uri: Uri, c: Candidate) {
    && uri in s.artifacts
    && var art := s.artifacts[uri];
       && art.namespace == c.namespace && art.state == Writing
       && art.writer == Some((id, c.writerToken)) && art.lock == c.lock
  }

  function Seal(s: State, u: UnitId, ev: Evidence): State
    requires u in s.units && ev.uri in s.artifacts
  {
    s.(refs := s.refs + {Reference(ev.uri, UnitOwner(u))},
       artifacts := s.artifacts[ev.uri := s.artifacts[ev.uri].(state := Ready, writer := None, content := ev.content)],
       units := s.units[u := s.units[u].(status := Done, result := Some(ev), active := None)])
  }

  function CommitEvidence(s: State, id: AttemptId, token: Token, owner: Token, c: Candidate,
                          ev: Evidence): Outcome<PlanDoc> {
    if ev.rows < 0 || ev.bytes <= 0 || ev.dev < 0 || ev.ino < 0 then Raised(InvalidEvidence)
    else if id !in s.attempts then Raised(NoAttempt)
    else if !LiveClaim(s, id, token, owner) then Raised(StaleClaim)
    else
      var u := s.attempts[id].unitId;
      var row := s.units[u];
      var task := u.parent;
      if row.status == Done then
        if row.result != Some(ev) then Raised(ReplayChanged) else Committed(s, Doc(s, task))
      else if ev.rows != row.end - row.start then Raised(WrongRows)
      else if ev.schema != s.plans[task].schema then Raised(WrongSchema)
      else if u.GatherUnit? && (!ChildrenDone(s.units, task) || ev.rows != s.plans[task].rows) then
        Raised(ChildrenMissing)
      else if !IsCurrentWriter(s, id, ev.uri, c) then Raised(NotTheWriter)
      else if exists r :: r in s.refs && r.uri == ev.uri then Raised(AlreadyReferenced)
      else
        var s' := EndAttempt(Seal(s, u, ev), id, AttemptDone);
        Committed(s', Doc(s', task))
  }

  function RetryUnit(s: State, task: TaskId, u: UnitId, pa: AttemptId, owner: Token): Outcome<PlanDoc> {
    if !FenceOk(s, task, pa, owner) then Raised(StaleParent)
    else if task !in s.plans || u !in s.units || u.parent != task then Raised(NotInPlan)
    else if s.units[u].status == Done then Committed(s, Doc(s, task))
    else
      var row := s.units[u];
      var s1 := if row.active.Some? && row.active.value in s.attempts && s.attempts[row.active.value].status == Running
                then EndAttempt(s, row.active.value, Fenced) else s;
      var s2 := if row.result.Some? then s1.(refs := s1.refs - {Reference(row.result.value.uri, UnitOwner(u))}) else s1;
      var s3 := WithUnit(s2, u, Unit(Pending, row.start, row.end, None, None));
      Committed(s3, Doc(s3, task))
  }

  // ---- purge ----

  function PurgedSlots(s: State, tasks: set<TaskId>): seq<Slot> {
    seq(|s.slots|, n requires 0 <= n < |s.slots| =>
      var h := s.slots[n].holder;
      if h.Some? && h.value in s.attempts && s.attempts[h.value].unitId in s.units
        && s.attempts[h.value].unitId.parent in tasks
         && s.attempts[h.value].slot == Some(n) && s.slots[n].token == s.attempts[h.value].token
      then FREE_SLOT else s.slots[n])
  }

  function UnitsOutside(units: map<UnitId, Unit>, tasks: set<TaskId>): map<UnitId, Unit> {
    map u | u in units && u.parent !in tasks :: units[u]
  }

  function PlansOutside(plans: map<TaskId, Plan>, tasks: set<TaskId>): map<TaskId, Plan> {
    map t | t in plans && t !in tasks :: plans[t]
  }

  function PurgedRefs(refs: set<Reference>, units: map<UnitId, Unit>, tasks: set<TaskId>): set<Reference> {
    set r | r in refs && !PurgedReference(units, tasks, r)
  }

  function PurgedAttempts(attempts: map<AttemptId, Attempt>, units: map<UnitId, Unit>,
                          tasks: set<TaskId>): map<AttemptId, Attempt> {
    map a | a in attempts && !(attempts[a].unitId in units && attempts[a].unitId.parent in tasks) :: attempts[a]
  }

  /** `purge_for_delete`: every fan-out row of these parents goes, with its slots and owner references. */
  function Purge(s: State, tasks: set<TaskId>): State {
    if forall t :: t in tasks ==> t !in s.plans then s
    else
      s.(plans := PlansOutside(s.plans, tasks), units := UnitsOutside(s.units, tasks),
         attempts := PurgedAttempts(s.attempts, s.units, tasks),
         slots := PurgedSlots(s, tasks), refs := PurgedRefs(s.refs, s.units, tasks))
  }

  predicate PurgedReference(units: map<UnitId, Unit>, tasks: set<TaskId>, r: Reference) {
    && r.owner.UnitOwner? && r.owner.unitId in units && r.owner.unitId.parent in tasks
    && units[r.owner.unitId].result.Some? && units[r.owner.unitId].result.value.uri == r.uri
  }

  // ---- everything else in the database ----

  predicate Referenced(s: State, uri: Uri) {
    exists r :: r in s.refs && r.uri == uri
  }

  /**
   * One transaction of the rest of the system. It leaves the fan-out tables alone, and:
   * time does not go back; a task that owns a plan is not dropped (foreign key) and keeps its kind;
   * a committed checkpoint never changes; the local-result registry neither reclaims nor rewrites a
   * referenced or ready artifact, and touches no fan-out owner reference.
   */
  ghost predicate Environment(s: State, s': State) {
    && s'.plans == s.plans && s'.units == s.units && s'.attempts == s.attempts && s'.slots == s.slots
    && s.now <= s'.now
    && (forall t :: t in s.plans && t in s.parents && s.parents[t].checkpointKind ==>
      t in s'.parents && s'.parents[t].checkpointKind)
    && (forall t :: t in s.parents && t in s'.parents && s.parents[t].checkpoint.Some? ==>
      s'.parents[t].checkpoint == s.parents[t].checkpoint)
    && (forall uri :: uri in s.artifacts && Referenced(s, uri) && s.artifacts[uri].state == Ready
          ==> uri in s'.artifacts && s'.artifacts[uri].state == Ready)
    && (forall uri :: uri in s.artifacts && s.artifacts[uri].state != Writing && uri in s'.artifacts
          ==> s'.artifacts[uri].content == s.artifacts[uri].content && s'.artifacts[uri].state != Writing)
    && (forall r: Reference :: r.owner.UnitOwner? ==> (r in s.refs <==> r in s'.refs))
  }

  // ---- runs ----

  datatype Op =
    | DoPlan(task: TaskId, pa: AttemptId, owner: Token, operation: string, partitions: int)
    | DoPause(task: TaskId, pa: AttemptId, owner: Token, paused: bool)
    | DoClaim(task: TaskId, u: UnitId, pa: AttemptId, owner: Token, newId: AttemptId, token: Token)
    | DoHeartbeat(id: AttemptId, token: Token, owner: Token)
    | DoFinish(id: AttemptId, token: Token, owner: Token, cancel: bool)
    | DoCommit(id: AttemptId, token: Token, owner: Token, c: Candidate, ev: Evidence)
    | DoRetry(task: TaskId, u: UnitId, pa: AttemptId, owner: Token)
    | DoPurge(tasks: set<TaskId>)
    | DoElse(after: State)

  function Settle<A>(s: State, o: Outcome<A>): State {
    if o.Committed? then o.state else s
  }

  /** One transaction by anyone, with any arguments: stale tokens, wrong owners and replays included. */
  ghost function Apply(s: State, op: Op): State {
    match op
    case DoPlan(t, pa, o, operation, n) => Settle(s, CreateOrReopen(s, t, pa, o, operation, n))
    case DoPause(t, pa, o, p) => Settle(s, SetPaused(s, t, pa, o, p))
    case DoClaim(t, u, pa, o, newId, token) => Settle(s, ClaimUnit(s, t, u, pa, o, newId, token))
    case DoHeartbeat(id, token, o) => Settle(s, Heartbeat(s, id, token, o))
    case DoFinish(id, token, o, cancel) => Settle(s, Finish(s, id, token, o, cancel))
    case DoCommit(id, token, o, c, ev) => Settle(s, CommitEvidence(s, id, token, o, c, ev))
    case DoRetry(t, u, pa, o) => Settle(s, RetryUnit(s, t, u, pa, o))
    case DoPurge(tasks) => Purge(s, tasks)
    case DoElse(after) => if Environment(s, after) then after else s
  }

  /** No fan-out work yet: four free slots, and nothing owned by a unit. */
  ghost predicate Initial(s: State) {
    && s.plans == map[] && s.units == map[] && s.attempts == map[]
    && s.slots == [FREE_SLOT, FREE_SLOT, FREE_SLOT, FREE_SLOT]
    && forall r: Reference :: r in s.refs ==> r.owner.OtherOwner?
  }

  /** A run: from no fan-out work, each state by one transaction from the one before. */
  ghost predicate Behaviour(tr: seq<State>, ops: seq<Op>) {
    && |tr| == |ops| + 1
    && Initial(tr[0])
    && forall i :: 0 <= i < |ops| ==> tr[i + 1] == Apply(tr[i], ops[i])
  }
}
