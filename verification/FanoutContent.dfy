/**
 * End to end: the workers drive the transactions, and what they commit is the
 * checkpoint. Workers run concurrently, read at different times than they
 * commit, work from plan documents that may be old, and may stop at any point.
 */
module FanoutContent {
  import opened Options
  import opened Partition
  import opened FanoutModel
  import opened FanoutLinks
  import opened FanoutSafety

  // ---- the workers ----

  /**
   * A worker on one unit attempt: a child projects its range, the gather reads the child results of its plan
   * document.
   */
  datatype Job =
    | ChildJob(unitId: UnitId, content: Option<seq<Row>>)
    | GatherJob(unitId: UnitId, doc: PlanDoc, parts: seq<seq<Row>>)

  /**
   * `docs` are the plan documents anyone may have seen, `jobs` the workers by attempt, and `sealed` remembers
   * every committed fan-out artifact (its uri is never reused, even after it is reclaimed).
   */
  datatype System = System(db: State, docs: set<PlanDoc>, jobs: map<AttemptId, Job>, sealed: map<Uri, seq<Row>>)

  datatype Move =
    | Transaction(op: Op)
    | StartChild(id: AttemptId)
    | Project(id: AttemptId)
    | StartGather(id: AttemptId, doc: PlanDoc)
    | ReadChild(id: AttemptId)
    | Commit(id: AttemptId, token: Token, owner: Token, c: Candidate, ev: Evidence)

  /** `project_range_from_guard` on the range of the unit. */
  function Projection(content: seq<Row>, r: Range): seq<Row>
    requires r.start <= r.end <= |content|
  {
    content[r.start..r.end]
  }

  function ChildIds(doc: PlanDoc): seq<UnitId> {
    seq(|doc.plan.digest.ranges|,
      i requires 0 <= i < |doc.plan.digest.ranges| => ChildUnit(doc.task, doc.plan.digest, i))
  }

  /** The gather worker's checks on its plan document: it is about this unit, and every child is done with a result. */
  predicate GatherReady(doc: PlanDoc, u: UnitId) {
    && u == GatherUnit(doc.task, doc.plan.digest)
    && forall i :: 0 <= i < |doc.plan.digest.ranges| ==>
         ChildIds(doc)[i] in doc.units && doc.units[ChildIds(doc)[i]].status == Done
           && doc.units[ChildIds(doc)[i]].result.Some?
  }

  /** What the job has ready to commit, if it is finished. */
  function Product(j: Job): Option<seq<Row>> {
    match j
    case ChildJob(_, content) => content
    case GatherJob(_, doc, parts) => if |parts| == |doc.plan.digest.ranges| then Some(Concat(parts)) else None
  }

  /** A unit attempt id is never handed out twice, and evidence only comes from a worker. */
  predicate Allowed(y: System, op: Op) {
    !op.DoCommit? && (op.DoClaim? ==> op.newId !in y.jobs)
  }

  ghost predicate UrisNotReused(y: System, after: State) {
    forall uri :: uri in y.sealed && uri in after.artifacts ==> uri in y.db.artifacts
  }

  ghost function AfterDb(y: System, db: State): System {
    y.(db := db, docs := y.docs + set t | t in db.plans :: Doc(db, t))
  }

  ghost function Step(y: System, m: Move): System {
    match m
    case Transaction(op) =>
      if Allowed(y, op) && (op.DoElse? ==> UrisNotReused(y, op.after)) then AfterDb(y, Apply(y.db, op)) else y
    case StartChild(id) =>
      if id in y.db.attempts && y.db.attempts[id].unitId.ChildUnit?
      then y.(jobs := y.jobs[id := ChildJob(y.db.attempts[id].unitId, None)]) else y
    case Project(id) =>
      if id in y.jobs && y.jobs[id].ChildJob? && ProjectionReady(y.db, y.jobs[id].unitId)
      then
        var u := y.jobs[id].unitId;
        var content := Projection(y.db.parents[u.parent].checkpoint.value.content, UnitRange(u));
        y.(jobs := y.jobs[id := y.jobs[id].(content := Some(content))])
      else y
    case StartGather(id, doc) =>
      if doc in y.docs && id in y.db.attempts && GatherReady(doc, y.db.attempts[id].unitId)
      then y.(jobs := y.jobs[id := GatherJob(y.db.attempts[id].unitId, doc, [])]) else y
    case ReadChild(id) =>
      if id in y.jobs && y.jobs[id].GatherJob? && ReadReady(y.db, y.jobs[id])
      then y.(jobs := y.jobs[id :=
        y.jobs[id].(parts := y.jobs[id].parts + [y.db.artifacts[NextUri(y.jobs[id])].content])])
      else y
    case Commit(id, token, owner, c, ev) =>
      if id in y.jobs && Product(y.jobs[id]) == Some(ev.content) && ev.rows == |ev.content| then
        var o := CommitEvidence(y.db, id, token, owner, c, ev);
        if o.Committed? then AfterDb(y, o.state).(sealed := y.sealed[ev.uri := ev.content]) else y
      else y
  }

  /** The range the worker reads off its unit; the plan wrote it from the digest's ranges. */
  function UnitRange(u: UnitId): Range
    requires u.ChildUnit? && u.part < |u.digest.ranges|
  {
    u.digest.ranges[u.part]
  }

  /** The committed checkpoint of the unit's parent is there and long enough. */
  predicate ProjectionReady(db: State, u: UnitId) {
    && u.ChildUnit? && u.part < |u.digest.ranges|
    && u.parent in db.parents && db.parents[u.parent].checkpoint.Some?
    && UnitRange(u).start <= UnitRange(u).end <= |db.parents[u.parent].checkpoint.value.content|
  }

  predicate MoreToRead(j: Job)
    requires j.GatherJob?
  {
    && |j.parts| < |j.doc.plan.digest.ranges|
    && ChildIds(j.doc)[|j.parts|] in j.doc.units && j.doc.units[ChildIds(j.doc)[|j.parts|]].result.Some?
  }

  function NextUri(j: Job): Uri
    requires j.GatherJob? && MoreToRead(j)
  {
    j.doc.units[ChildIds(j.doc)[|j.parts|]].result.value.uri
  }

  /** `acquire_result_read` admits only a ready artifact. */
  predicate ReadReady(db: State, j: Job)
    requires j.GatherJob?
  {
    MoreToRead(j) && NextUri(j) in db.artifacts && db.artifacts[NextUri(j)].state == Ready
  }

  ghost predicate SystemRun(tr: seq<System>, ms: seq<Move>) {
    && |tr| == |ms| + 1
    && Initial(tr[0].db) && tr[0].docs == {} && tr[0].jobs == map[] && tr[0].sealed == map[]
    && forall i :: 0 <= i < |ms| ==> tr[i + 1] == Step(tr[i], ms[i])
  }

  // ---- what the content of everything is ----

  ghost predicate DigestFormed(d: PlanDigest) {
    d.ranges == PartitionRanges(|d.content|)
  }

  /** The part of the checkpoint a unit stands for. */
  ghost predicate Expected(u: UnitId, content: seq<Row>) {
    && DigestFormed(u.digest)
    && (u.ChildUnit? ==>
      && u.part < |u.digest.ranges|
      && u.digest.ranges[u.part].start <= u.digest.ranges[u.part].end <= |u.digest.content|)
    && content == if u.ChildUnit? then Projection(u.digest.content, u.digest.ranges[u.part]) else u.digest.content
  }

  /** The evidence of a done row is sealed, and is the unit's part of the checkpoint. */
  ghost predicate RowTrue(u: UnitId, row: Unit, sealed: map<Uri, seq<Row>>) {
    row.status == Done ==>
      row.result.Some? && row.result.value.uri in sealed && sealed[row.result.value.uri] == row.result.value.content
      && Expected(u, row.result.value.content)
  }

  ghost predicate RowsTrue(units: Units, sealed: map<Uri, seq<Row>>) {
    forall u :: u in units ==> RowTrue(u, units[u], sealed)
  }

  ghost predicate SealedKept(artifacts: Artifacts, sealed: map<Uri, seq<Row>>) {
    forall uri :: uri in sealed && uri in artifacts ==>
      artifacts[uri].state != Writing && artifacts[uri].content == sealed[uri]
  }

  ghost predicate DocTrue(doc: PlanDoc, sealed: map<Uri, seq<Row>>) {
    DigestFormed(doc.plan.digest) && RowsTrue(doc.units, sealed)
  }

  ghost predicate DocsTrue(docs: set<PlanDoc>, sealed: map<Uri, seq<Row>>) {
    forall doc :: doc in docs ==> DocTrue(doc, sealed)
  }

  ghost predicate PartsTrue(d: PlanDigest, parts: seq<seq<Row>>) {
    && |parts| <= |d.ranges|
    && forall i :: 0 <= i < |parts| ==>
      d.ranges[i].start <= d.ranges[i].end <= |d.content| && parts[i] == Projection(d.content, d.ranges[i])
  }

  /** A job works on its attempt's unit, and what it has read so far is right (as long as the attempt exists). */
  ghost predicate JobTrue(id: AttemptId, j: Job, attempts: Attempts, docs: set<PlanDoc>) {
    && (id in attempts ==> attempts[id].unitId == j.unitId)
    && match j
       case ChildJob(u, content) => id in attempts && content.Some? ==> Expected(u, content.value)
       case GatherJob(u, doc, parts) =>
         doc in docs && GatherReady(doc, u) && DigestFormed(doc.plan.digest) && PartsTrue(doc.plan.digest, parts)
  }

  ghost predicate JobsTrue(jobs: map<AttemptId, Job>, attempts: Attempts, docs: set<PlanDoc>) {
    forall id :: id in jobs ==> JobTrue(id, jobs[id], attempts, docs)
  }

  ghost predicate Truthful(y: System) {
    && RowsTrue(y.db.units, y.sealed) && SealedKept(y.db.artifacts, y.sealed)
    && DocsTrue(y.docs, y.sealed) && JobsTrue(y.jobs, y.db.attempts, y.docs)
  }

  ghost predicate ContentInv(y: System) {
    Inv(y.db) && Truthful(y)
  }

  // ---- helpers ----

  /** A finished gather holds the whole checkpoint. */
  lemma GatheredWhole(d: PlanDigest, parts: seq<seq<Row>>)
    requires DigestFormed(d) && PartsTrue(d, parts) && |parts| == |d.ranges|
    ensures Concat(parts) == d.content
  {
    RangesTile(|d.content|);
    SlicesGlue(d.ranges, 0, |d.content|, d.content, parts);
    assert d.content[0..|d.content|] == d.content;
  }

  lemma PlannedDigest(units: Units, plans: Plans, parents: Parents, u: UnitId)
    requires Planned(units, plans, parents) && u in units
    ensures DigestFormed(u.digest) && (u.ChildUnit? ==> u.part < |u.digest.ranges|)
    ensures u.parent in parents && parents[u.parent].checkpoint.Some?
      && parents[u.parent].checkpoint.value.content == u.digest.content
  {
    assert UnitPlanned(u, units[u], plans);
    assert PlanFormed(u.parent, plans[u.parent], units, parents);
  }

  // ---- one move ----

  lemma DocsStayTrue(y: System, db: State, sealed: map<Uri, seq<Row>>)
    requires DocsTrue(y.docs, sealed) && RowsTrue(db.units, sealed) && Planned(db.units, db.plans, db.parents)
    ensures DocsTrue(AfterDb(y, db).docs, sealed)
  {
    forall doc | doc in AfterDb(y, db).docs ensures DocTrue(doc, sealed) {
      if doc !in y.docs {
        assert PlanFormed(doc.task, db.plans[doc.task], db.units, db.parents);
        forall u | u in doc.units ensures RowTrue(u, doc.units[u], sealed) {
          assert RowTrue(u, db.units[u], sealed);
        }
      }
    }
  }

  /** Jobs survive a transaction: attempts may vanish or be added under new ids, and keep their unit. */
  lemma JobsStayTrue(jobs: map<AttemptId, Job>, attempts: Attempts, attempts': Attempts, docs: set<PlanDoc>,
                     docs': set<PlanDoc>, time: Time)
    requires JobsTrue(jobs, attempts, docs) && docs <= docs' && AttemptsStep(attempts, attempts', time)
    requires forall a :: a in attempts' && a !in attempts ==> a !in jobs
    ensures JobsTrue(jobs, attempts', docs')
  {
    forall id | id in jobs ensures JobTrue(id, jobs[id], attempts', docs') {
      assert JobTrue(id, jobs[id], attempts, docs);
      if id in attempts' { assert AttemptStep(attempts[id], attempts'[id], time); }
    }
  }

  lemma RowsStayTrue(units: Units, units': Units, sealed: map<Uri, seq<Row>>)
    requires RowsTrue(units, sealed) && RowsStep(units, units')
    requires forall u :: u in units' && units'[u].status == Done ==> u in units && units[u].status == Done
    ensures RowsTrue(units', sealed)
  {
    forall u | u in units' ensures RowTrue(u, units'[u], sealed) {
      if units'[u].status == Done { assert RowTrue(u, units[u], sealed) && RowStep(units[u], units'[u]); }
    }
  }

  /**
   * A transaction other than a commit makes no unit done, changes no sealed artifact, and adds attempts only by
   * claiming.
   */
  ghost predicate Uncommitting(s: State, s': State, op: Op) {
    && (forall u :: u in s'.units && s'.units[u].status == Done ==> u in s.units && s.units[u].status == Done)
    && (!op.DoElse? ==> s'.artifacts == s.artifacts)
    && (forall a :: a in s'.attempts && a !in s.attempts ==> op.DoClaim? && a == op.newId)
  }

  lemma ClaimAdds(s: State, t: TaskId, u: UnitId, pa: AttemptId, owner: Token, newId: AttemptId, token: Token)
    requires StateLinks(s)
    ensures Uncommitting(s, Settle(s, ClaimUnit(s, t, u, pa, owner, newId, token)),
      DoClaim(t, u, pa, owner, newId, token))
  {
    ClaimWorks(s, t, u, pa, owner, newId, token);
    ClaimAddsOne(s, t, u, pa, owner, newId, token);
    WorkMakesNothingDone(s, Settle(s, ClaimUnit(s, t, u, pa, owner, newId, token)), u);
  }

  lemma WorkMakesNothingDone(s: State, s': State, u: UnitId)
    requires WorkStep(s, s', u)
    ensures forall v :: v in s'.units && s'.units[v].status == Done ==> v in s.units && s.units[v].status == Done
  {
    forall v | v in s'.units && s'.units[v].status == Done ensures v in s.units && s.units[v].status == Done {
      assert UnitWork(v, s.units[v], s'.units[v], u);
    }
  }

  lemma ClaimAddsOne(s: State, t: TaskId, u: UnitId, pa: AttemptId, owner: Token, newId: AttemptId, token: Token)
    requires StateLinks(s)
    ensures Settle(s, ClaimUnit(s, t, u, pa, owner, newId, token)).attempts.Keys <= s.attempts.Keys + {newId}
  {
    var o := ClaimUnit(s, t, u, pa, owner, newId, token);
    if o.Committed? && o.state != s {
      assert UnitLinked(u, s.units[u], s.attempts);
      if s.units[u].active.Some? {
        ReclaimAdds(s, u, pa, owner, newId, token);
      } else {
        OpenAdds(s, u, pa, owner, newId, token);
      }
    }
  }

  lemma ReclaimAdds(s: State, u: UnitId, pa: AttemptId, owner: Token, newId: AttemptId, token: Token)
    requires StateLinks(s) && u in s.units && s.units[u].active.Some? && s.units[u].active.value in s.attempts
      && s.units[u].status != Done
    ensures var o := OpenAttempt(FenceAttempt(s, s.units[u].active.value, u), u, pa, owner, newId, token);
            o.Committed? ==> o.state.attempts.Keys == s.attempts.Keys + {newId}
  {
    FenceWorks(s, u);
    OpenAdds(FenceAttempt(s, s.units[u].active.value, u), u, pa, owner, newId, token);
  }

  lemma OpenAdds(s: State, u: UnitId, pa: AttemptId, owner: Token, newId: AttemptId, token: Token)
    requires LinksExcept(s.slots, s.attempts, s.units, Some(u)) && u in s.units && s.units[u].active.None?
    ensures var o := OpenAttempt(s, u, pa, owner, newId, token);
      o.Committed? ==> o.state.attempts.Keys == s.attempts.Keys + {newId}
  {
    var o := OpenAttempt(s, u, pa, owner, newId, token);
    if o.Committed? {
      var n := FirstFree(s.slots, s.now).value;
      if s.slots[n].holder.Some? { EvictEffect(s, u, n); }
    }
  }

  lemma FinishAdds(s: State, id: AttemptId, token: Token, owner: Token, cancel: bool)
    requires StateLinks(s)
    ensures Uncommitting(s, Settle(s, Finish(s, id, token, owner, cancel)), DoFinish(id, token, owner, cancel))
  {
    if Finish(s, id, token, owner, cancel).Committed? {
      EndAttemptEffect(s, id, if cancel then AttemptCancelled else AttemptFailed, None);
    }
  }

  lemma RetryAdds(s: State, t: TaskId, u: UnitId, pa: AttemptId, owner: Token)
    requires StateLinks(s)
    ensures Uncommitting(s, Settle(s, RetryUnit(s, t, u, pa, owner)), DoRetry(t, u, pa, owner))
  {
    if u in s.units && s.units[u].active.Some? {
      assert UnitLinked(u, s.units[u], s.attempts);
      EndAttemptEffect(s, s.units[u].active.value, Fenced, None);
    }
  }

  lemma TransactionAdds(s: State, op: Op)
    requires StateLinks(s) && !op.DoCommit?
    ensures Uncommitting(s, Apply(s, op), op)
  {
    match op
    case DoClaim(t, u, pa, o, newId, token) => ClaimAdds(s, t, u, pa, o, newId, token);
    case DoFinish(id, token, o, cancel) => FinishAdds(s, id, token, o, cancel);
    case DoRetry(t, u, pa, o) => RetryAdds(s, t, u, pa, o);
    case DoPlan(t, pa, o, operation, n) => PlanAdds(s, t, pa, o, operation, n);
    case _ => OtherAdds(s, op);
  }

  lemma PlanAdds(s: State, t: TaskId, pa: AttemptId, owner: Token, operation: string, n: int)
    ensures Uncommitting(s, Settle(s, CreateOrReopen(s, t, pa, owner, operation, n)),
      DoPlan(t, pa, owner, operation, n))
  {
  }

  lemma OtherAdds(s: State, op: Op)
    requires !op.DoCommit? && !op.DoClaim? && !op.DoFinish? && !op.DoRetry? && !op.DoPlan?
    ensures Uncommitting(s, Apply(s, op), op)
  {
  }

  lemma SealedStayKept(y: System, op: Op, db: State)
    requires SealedKept(y.db.artifacts, y.sealed) && Uncommitting(y.db, db, op)
    requires op.DoElse? ==> (Environment(y.db, db) && UrisNotReused(y, db)) || db == y.db
    ensures SealedKept(db.artifacts, y.sealed)
  {
  }

  lemma TransactionKeeps(y: System, op: Op, db: State)
    requires Truthful(y) && Allowed(y, op) && Uncommitting(y.db, db, op)
    requires Planned(db.units, db.plans, db.parents) && RowsStep(y.db.units, db.units)
      && AttemptsStep(y.db.attempts, db.attempts, y.db.now)
    requires op.DoElse? ==> (Environment(y.db, db) && UrisNotReused(y, db)) || db == y.db
    ensures Truthful(AfterDb(y, db))
  {
    RowsStayTrue(y.db.units, db.units, y.sealed);
    SealedStayKept(y, op, db);
    DocsStayTrue(y, db, y.sealed);
    JobsStayTrue(y.jobs, y.db.attempts, db.attempts, y.docs, AfterDb(y, db).docs, y.db.now);
  }

  lemma SealingKeepsTrue(units: Units, docs: set<PlanDoc>, sealed: map<Uri, seq<Row>>, uri: Uri, content: seq<Row>)
    requires RowsTrue(units, sealed) && DocsTrue(docs, sealed) && uri !in sealed
    ensures RowsTrue(units, sealed[uri := content]) && DocsTrue(docs, sealed[uri := content])
  {
    forall u | u in units ensures RowTrue(u, units[u], sealed[uri := content]) { assert RowTrue(u, units[u], sealed); }
    forall doc | doc in docs ensures DocTrue(doc, sealed[uri := content]) {
      assert DocTrue(doc, sealed);
      forall u | u in doc.units ensures RowTrue(u, doc.units[u],
        sealed[uri := content]) { assert RowTrue(u, doc.units[u], sealed); }
    }
  }

  /** What a finished job is about to commit is its unit's part of the checkpoint. */
  lemma ProductExpected(jobs: map<AttemptId, Job>, attempts: Attempts, docs: set<PlanDoc>, id: AttemptId)
    requires JobsTrue(jobs, attempts, docs) && id in jobs && id in attempts && Product(jobs[id]).Some?
    ensures Expected(attempts[id].unitId, Product(jobs[id]).value)
  {
    var j := jobs[id];
    assert JobTrue(id, j, attempts, docs);
    if j.GatherJob? { GatheredWhole(j.doc.plan.digest, j.parts); }
  }

  lemma CommitSeals(y: System, id: AttemptId, token: Token, owner: Token, c: Candidate, ev: Evidence)
    requires ContentInv(y) && id in y.jobs && Product(y.jobs[id]) == Some(ev.content) && ev.rows == |ev.content|
    requires CommitEvidence(y.db, id, token, owner, c, ev).Committed?
    ensures var db := CommitEvidence(y.db, id, token, owner, c, ev).state;
      ContentInv(AfterDb(y, db).(sealed := y.sealed[ev.uri := ev.content]))
  {
    CommitKeeps(y.db, id, token, owner, c, ev);
    CommitTells(y, id, token, owner, c, ev);
  }

  lemma CommitTells(y: System, id: AttemptId, token: Token, owner: Token, c: Candidate, ev: Evidence)
    requires StateLinks(y.db) && Truthful(y) && id in y.jobs && Product(y.jobs[id]) == Some(ev.content)
    requires var o := CommitEvidence(y.db, id, token, owner, c, ev);
             o.Committed? && Planned(o.state.units, o.state.plans, o.state.parents)
    ensures var db := CommitEvidence(y.db, id, token, owner, c, ev).state;
      Truthful(AfterDb(y, db).(sealed := y.sealed[ev.uri := ev.content]))
  {
    CommitEffect(y.db, id, token, owner, c, ev);
    CommitSealsParts(y, CommitEvidence(y.db, id, token, owner, c, ev).state, y.db.attempts[id].unitId, id, ev);
  }

  lemma CommitSealsParts(y: System, db: State, u: UnitId, id: AttemptId, ev: Evidence)
    requires Truthful(y) && Planned(db.units, db.plans, db.parents)
    requires id in y.jobs && Product(y.jobs[id]) == Some(ev.content)
    requires id in y.db.attempts && y.db.attempts[id].unitId == u && u in y.db.units
    requires ev.uri in y.db.artifacts && y.db.artifacts[ev.uri].state == Writing
    requires db.units == y.db.units[u := SealedUnit(y.db.units[u], ev)] && y.db.attempts[id].status == Running
    requires db.attempts == y.db.attempts[id := Ended(y.db.attempts[id], AttemptDone)]
    requires db.artifacts ==
      y.db.artifacts[ev.uri := y.db.artifacts[ev.uri].(state := Ready, writer := None, content := ev.content)]
    ensures Truthful(AfterDb(y, db).(sealed := y.sealed[ev.uri := ev.content]))
  {
    var sealed := y.sealed[ev.uri := ev.content];
    ProductExpected(y.jobs, y.db.attempts, y.docs, id);
    SealingKeepsTrue(y.db.units, y.docs, y.sealed, ev.uri, ev.content);
    SealedRowsTrue(y.db.units, u, ev, sealed);
    DocsStayTrue(y, db, sealed);
    JobsStayTrue(y.jobs, y.db.attempts, db.attempts, y.docs, AfterDb(y, db).docs, y.db.now);
  }

  lemma SealedRowsTrue(units: Units, u: UnitId, ev: Evidence, sealed: map<Uri, seq<Row>>)
    requires RowsTrue(units, sealed) && u in units && Expected(u, ev.content)
    requires ev.uri in sealed && sealed[ev.uri] == ev.content
    ensures RowsTrue(units[u := SealedUnit(units[u], ev)], sealed)
  {
    var units' := units[u := SealedUnit(units[u], ev)];
    forall v | v in units' ensures RowTrue(v, units'[v], sealed) { assert RowTrue(v, units[v], sealed); }
  }

  lemma JobSet(jobs: map<AttemptId, Job>, attempts: Attempts, docs: set<PlanDoc>, id: AttemptId, j: Job)
    requires JobsTrue(jobs, attempts, docs) && JobTrue(id, j, attempts, docs)
    ensures JobsTrue(jobs[id := j], attempts, docs)
  {
    forall k | k in jobs[id := j] ensures JobTrue(k, if k == id then j else jobs[k], attempts, docs) {
      if k != id { assert JobTrue(k, jobs[k], attempts, docs); }
    }
  }

  lemma ProjectIsTrue(db: State, jobs: map<AttemptId, Job>, docs: set<PlanDoc>, id: AttemptId)
    requires JobsTrue(jobs, db.attempts, docs) && Planned(db.units, db.plans, db.parents)
    requires forall a :: a in db.attempts ==> db.attempts[a].unitId in db.units
    requires id in jobs && jobs[id].ChildJob? && ProjectionReady(db, jobs[id].unitId)
    ensures var u := jobs[id].unitId;
            var content := Projection(db.parents[u.parent].checkpoint.value.content, UnitRange(u));
            JobTrue(id, jobs[id].(content := Some(content)), db.attempts, docs)
  {
    var u := jobs[id].unitId;
    assert JobTrue(id, jobs[id], db.attempts, docs);
    if id in db.attempts {
      PlannedDigest(db.units, db.plans, db.parents, u);
    }
  }

  lemma ReadIsTrue(artifacts: Artifacts, db: State, j: Job, id: AttemptId, docs: set<PlanDoc>,
                   sealed: map<Uri, seq<Row>>)
    requires j.GatherJob? && JobTrue(id, j, db.attempts, docs) && DocsTrue(docs, sealed)
      && SealedKept(artifacts, sealed)
    requires artifacts == db.artifacts && ReadReady(db, j)
    ensures JobTrue(id, j.(parts := j.parts + [artifacts[NextUri(j)].content]), db.attempts, docs)
  {
    var i := |j.parts|;
    var child := ChildIds(j.doc)[i];
    assert child == ChildUnit(j.doc.task, j.doc.plan.digest, i);
    assert DocTrue(j.doc, sealed);
    assert RowTrue(child, j.doc.units[child], sealed);
  }

  /** A worker's own step changes nothing but its job. */
  lemma WorkerKeeps(y: System, m: Move)
    requires Truthful(y) && Planned(y.db.units, y.db.plans, y.db.parents) && !m.Transaction? && !m.Commit?
    requires forall a :: a in y.db.attempts ==> y.db.attempts[a].unitId in y.db.units
    ensures Truthful(Step(y, m)) && Step(y, m).db == y.db
  {
    match m
    case StartChild(id) =>
      if id in y.db.attempts && y.db.attempts[id].unitId.ChildUnit? {
        JobSet(y.jobs, y.db.attempts, y.docs, id, ChildJob(y.db.attempts[id].unitId, None));
      }
    case Project(id) =>
      if id in y.jobs && y.jobs[id].ChildJob? && ProjectionReady(y.db, y.jobs[id].unitId) {
        ProjectIsTrue(y.db, y.jobs, y.docs, id);
        JobSet(y.jobs, y.db.attempts, y.docs, id, Step(y, m).jobs[id]);
      }
    case StartGather(id, doc) =>
      if doc in y.docs && id in y.db.attempts && GatherReady(doc, y.db.attempts[id].unitId) {
        assert DocTrue(doc, y.sealed);
        JobSet(y.jobs, y.db.attempts, y.docs, id, GatherJob(y.db.attempts[id].unitId, doc, []));
      }
    case ReadChild(id) =>
      if id in y.jobs && y.jobs[id].GatherJob? && ReadReady(y.db, y.jobs[id]) {
        assert JobTrue(id, y.jobs[id], y.db.attempts, y.docs);
        ReadIsTrue(y.db.artifacts, y.db, y.jobs[id], id, y.docs, y.sealed);
        JobSet(y.jobs, y.db.attempts, y.docs, id, Step(y, m).jobs[id]);
      }
  }

  lemma AttemptsHaveUnits(slots: Slots, attempts: Attempts, units: Units)
    requires Links(slots, attempts, units)
    ensures forall a :: a in attempts ==> attempts[a].unitId in units
  {
    forall a | a in attempts ensures attempts[a].unitId in units { assert AttemptLinked(a, attempts[a], slots, units); }
  }

  lemma TransactionStepKeeps(y: System, op: Op)
    requires ContentInv(y)
    ensures ContentInv(Step(y, Transaction(op)))
  {
    if Allowed(y, op) && (op.DoElse? ==> UrisNotReused(y, op.after)) {
      ApplyKeeps(y.db, op);
      TransactionAdds(y.db, op);
      ElseIsEnvironment(y.db, op);
      AfterKeeps(y, op, Apply(y.db, op));
    }
  }

  lemma ElseIsEnvironment(s: State, op: Op)
    ensures op.DoElse? ==> Apply(s, op) == s || (Environment(s, Apply(s, op)) && Apply(s, op) == op.after)
  {
  }

  lemma AfterKeeps(y: System, op: Op, db: State)
    requires ContentInv(y) && Allowed(y, op) && (op.DoElse? ==> UrisNotReused(y, op.after))
    requires Inv(db) && Monotone(y.db, db, Gone(op)) && Uncommitting(y.db, db, op)
    requires op.DoElse? ==> db == y.db || (Environment(y.db, db) && db == op.after)
    ensures ContentInv(AfterDb(y, db))
  {
    TransactionKeeps(y, op, db);
  }

  lemma StepKeeps(y: System, m: Move)
    requires ContentInv(y)
    ensures ContentInv(Step(y, m))
  {
    if m.Transaction? {
      TransactionStepKeeps(y, m.op);
    } else if m.Commit? {
      if m.id in y.jobs && Product(y.jobs[m.id]) == Some(m.ev.content) && m.ev.rows == |m.ev.content|
         && CommitEvidence(y.db, m.id, m.token, m.owner, m.c, m.ev).Committed? {
        CommitSeals(y, m.id, m.token, m.owner, m.c, m.ev);
      }
    } else {
      AttemptsHaveUnits(y.db.slots, y.db.attempts, y.db.units);
      WorkerKeeps(y, m);
    }
  }

  lemma {:induction false} SystemKeeps(tr: seq<System>, ms: seq<Move>, n: nat)
    requires SystemRun(tr, ms) && n <= |ms|
    ensures ContentInv(tr[n])
  {
    if n > 0 {
      SystemKeeps(tr, ms, n - 1);
      StepKeeps(tr[n - 1], ms[n - 1]);
      assert tr[n - 1 + 1] == Step(tr[n - 1], ms[n - 1]);
    } else {
      assert ContentInv(tr[0]);
    }
  }

  // ---- the result ----

  function ChildContents(units: Units, t: TaskId, d: PlanDigest): seq<seq<Row>>
    requires forall i :: 0 <= i < |d.ranges| ==> ChildUnit(t, d, i) in units && units[ChildUnit(t, d, i)].result.Some?
  {
    seq(|d.ranges|, i requires 0 <= i < |d.ranges| => units[ChildUnit(t, d, i)].result.value.content)
  }

  function SumRows(units: Units, t: TaskId, d: PlanDigest, n: nat): int
    requires n <= |d.ranges|
    requires forall i :: 0 <= i < |d.ranges| ==> ChildUnit(t, d, i) in units && units[ChildUnit(t, d, i)].result.Some?
  {
    if n == 0 then 0 else SumRows(units, t, d, n - 1) + units[ChildUnit(t, d, n - 1)].result.value.rows
  }

  lemma {:induction false} SumIsBoundary(units: Units, t: TaskId, d: PlanDigest, n: nat)
    requires DigestFormed(d) && n <= |d.ranges|
    requires forall i :: 0 <= i < |d.ranges| ==> ChildUnit(t, d, i) in units && units[ChildUnit(t, d, i)].result.Some?
    requires forall i :: 0 <= i < |d.ranges| ==>
      units[ChildUnit(t, d, i)].result.value.rows == d.ranges[i].end - d.ranges[i].start
    ensures SumRows(units, t, d, n) == Boundary(|d.content|, n)
  {
    if n > 0 {
      SumIsBoundary(units, t, d, n - 1);
    }
  }

  /** Everything about one plan whose gather is done. */
  ghost predicate EndToEnd(db: State, t: TaskId)
    requires t in db.plans
  {
    var p := db.plans[t];
    var d := p.digest;
    && Tiles(d.ranges, 0, p.rows)
    && (forall i :: 0 <= i < |d.ranges| ==>
      ChildUnit(t, d, i) in db.units && db.units[ChildUnit(t, d, i)].status == Done
        && db.units[ChildUnit(t, d, i)].result.Some?)
    && SumRows(db.units, t, d, |d.ranges|) == p.rows
    && t in db.parents && db.parents[t].checkpoint.Some?
    && var truth := db.parents[t].checkpoint.value.content;
       && |truth| == p.rows
       && Concat(ChildContents(db.units, t, d)) == truth
       && GatherUnit(t, d) in db.units && db.units[GatherUnit(t, d)].result.Some?
       && db.units[GatherUnit(t, d)].result.value.content == truth
       && db.units[GatherUnit(t, d)].result.value.uri in db.artifacts
       && db.artifacts[db.units[GatherUnit(t, d)].result.value.uri].content == truth
  }

  lemma ChildrenAre(db: State, t: TaskId)
    requires Inv(db) && t in db.plans
    requires GatherUnit(t, db.plans[t].digest) in db.units && db.units[GatherUnit(t, db.plans[t].digest)].status == Done
    ensures DigestFormed(db.plans[t].digest)
    ensures forall i :: 0 <= i < |db.plans[t].digest.ranges| ==>
              var u := ChildUnit(t, db.plans[t].digest, i);
              && u in db.units && db.units[u].status == Done && db.units[u].result.Some?
              && db.units[u].result.value.rows == db.plans[t].digest.ranges[i].end - db.plans[t].digest.ranges[i].start
  {
    var d := db.plans[t].digest;
    assert PlanFormed(t, db.plans[t], db.units, db.parents);
    assert Started(db.units[GatherUnit(t, d)]);
    assert ChildrenDone(db.units, t);
    forall i | 0 <= i < |d.ranges|
      ensures ChildUnit(t, d, i) in db.units && db.units[ChildUnit(t, d, i)].status == Done
        && db.units[ChildUnit(t, d, i)].result.Some?
      ensures db.units[ChildUnit(t, d, i)].result.value.rows == d.ranges[i].end - d.ranges[i].start
    {
      var u := ChildUnit(t, d, i);
      assert UnitEvidenced(u, db.units[u], db.artifacts, db.refs) && UnitPlanned(u, db.units[u], db.plans);
    }
  }

  lemma ChildrenConcat(units: Units, t: TaskId, d: PlanDigest, sealed: map<Uri, seq<Row>>)
    requires DigestFormed(d) && RowsTrue(units, sealed)
    requires forall i :: 0 <= i < |d.ranges| ==>
               ChildUnit(t, d, i) in units && units[ChildUnit(t, d, i)].status == Done
                 && units[ChildUnit(t, d, i)].result.Some?
    ensures Concat(ChildContents(units, t, d)) == d.content
  {
    var parts := ChildContents(units, t, d);
    forall i | 0 <= i < |parts| ensures d.ranges[i].start <= d.ranges[i].end <= |d.content|
      && parts[i] == Projection(d.content, d.ranges[i]) {
      assert RowTrue(ChildUnit(t, d, i), units[ChildUnit(t, d, i)], sealed);
    }
    GatheredWhole(d, parts);
  }

  lemma DoneIsWhole(y: System, t: TaskId)
    requires ContentInv(y) && t in y.db.plans
    requires GatherUnit(t, y.db.plans[t].digest) in y.db.units
      && y.db.units[GatherUnit(t, y.db.plans[t].digest)].status == Done
    ensures EndToEnd(y.db, t)
  {
    ChildrenAre(y.db, t);
    WholeFrom(y, t);
  }

  lemma WholeFrom(y: System, t: TaskId)
    requires Planned(y.db.units, y.db.plans, y.db.parents) && Evidenced(y.db.units, y.db.artifacts, y.db.refs)
    requires RowsTrue(y.db.units, y.sealed) && t in y.db.plans && DigestFormed(y.db.plans[t].digest)
    requires GatherUnit(t, y.db.plans[t].digest) in y.db.units
      && y.db.units[GatherUnit(t, y.db.plans[t].digest)].status == Done
    requires forall i :: 0 <= i < |y.db.plans[t].digest.ranges| ==> ChildUnit(t, y.db.plans[t].digest, i) in y.db.units
    requires forall i :: 0 <= i < |y.db.plans[t].digest.ranges| ==>
               var u := ChildUnit(t, y.db.plans[t].digest, i);
               && y.db.units[u].status == Done && y.db.units[u].result.Some?
               && y.db.units[u].result.value.rows ==
                 y.db.plans[t].digest.ranges[i].end - y.db.plans[t].digest.ranges[i].start
    ensures EndToEnd(y.db, t)
  {
    var db, d := y.db, y.db.plans[t].digest;
    var g := GatherUnit(t, d);
    assert PlanFormed(t, db.plans[t], db.units, db.parents);
    RangesTile(|d.content|);
    assert RowTrue(g, db.units[g], y.sealed) && UnitEvidenced(g, db.units[g], db.artifacts, db.refs);
    SumIsBoundary(db.units, t, d, |d.ranges|);
    BoundaryLimits(|d.content|, |d.ranges|);
    ChildrenConcat(db.units, t, d, y.sealed);
  }

  /**
   * In every state of every run of the whole system: once a plan's gather is done, every child is done, the
   * ranges tile the checkpoint, the row counts add up, and both the child results in partition order and the
   * gathered artifact are exactly the checkpoint's rows.
   */
  lemma GatherDeliversCheckpoint(tr: seq<System>, ms: seq<Move>, n: nat, t: TaskId)
    requires SystemRun(tr, ms) && n <= |ms| && t in tr[n].db.plans
    requires var g := GatherUnit(t, tr[n].db.plans[t].digest); g in tr[n].db.units && tr[n].db.units[g].status == Done
    ensures EndToEnd(tr[n].db, t)
  {
    SystemKeeps(tr, ms, n);
    DoneIsWhole(tr[n], t);
  }
}
