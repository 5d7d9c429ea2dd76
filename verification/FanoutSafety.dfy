/**
 * What every reachable state of the fan-out tables satisfies, whoever runs
 * which transaction with whatever arguments.
 *
 * The invariant is a conjunction of parts over different tables. Most
 * transactions only move attempts and unit statuses (`WorkStep`); for those
 * every part is kept by one lemma. Planning, sealing evidence, purging and the
 * rest of the system are treated part by part.
 */
module FanoutSafety {
  import opened Options
  import opened Partition
  import opened FanoutModel
  import opened FanoutLinks

  type Plans = map<TaskId, Plan>
  type Parents = map<TaskId, Parent>
  type Artifacts = map<Uri, Artifact>

  // ---- plans and their units ----

  /** The range a unit id stands for; child `i` takes the digest's range `i`, the gather takes everything. */
  ghost predicate RangeMatches(u: UnitId, start: nat, end: nat) {
    if u.ChildUnit? then u.part < |u.digest.ranges| && u.digest.ranges[u.part] == Range(start, end)
    else start == 0 && end == |u.digest.content|
  }

  ghost predicate UnitPlanned(u: UnitId, row: Unit, plans: Plans) {
    u.parent in plans && plans[u.parent].digest == u.digest && RangeMatches(u, row.start, row.end)
  }

  ghost predicate PlanFormed(t: TaskId, p: Plan, units: Units, parents: Parents) {
    && p.rows == |p.digest.content| && p.schema == p.digest.schema
    && p.digest.ranges == PartitionRanges(p.rows)
    && t in parents && parents[t].checkpointKind
    && parents[t].checkpoint.Some? && parents[t].checkpoint.value.content == p.digest.content
    && GatherUnit(t, p.digest) in units
    && forall i :: 0 <= i < |p.digest.ranges| ==> ChildUnit(t, p.digest, i) in units
  }

  ghost predicate Planned(units: Units, plans: Plans, parents: Parents) {
    && (forall u :: u in units ==> UnitPlanned(u, units[u], plans))
    && (forall t :: t in plans ==> PlanFormed(t, plans[t], units, parents))
  }

  // ---- evidence and its owners ----

  ghost predicate Owns(units: Units, u: UnitId, uri: Uri) {
    u in units && units[u].status == Done && units[u].result.Some? && units[u].result.value.uri == uri
  }

  /** A done unit, and only a done unit, has evidence; its artifact is ready and referenced by the unit. */
  ghost predicate UnitEvidenced(u: UnitId, row: Unit, artifacts: Artifacts, refs: set<Reference>) {
    && (row.status == Done <==> row.result.Some?)
    && (row.status == Done ==>
          var ev := row.result.value;
          && ev.uri in artifacts && artifacts[ev.uri].state == Ready && artifacts[ev.uri].content == ev.content
          && Reference(ev.uri, UnitOwner(u)) in refs
          && ev.rows == row.end - row.start && ev.schema == u.digest.schema)
  }

  ghost predicate RefOwned(r: Reference, units: Units) {
    r.owner.UnitOwner? ==> Owns(units, r.owner.unitId, r.uri)
  }

  /** Owner references and done units match one to one, on pairwise distinct artifacts. */
  ghost predicate Evidenced(units: Units, artifacts: Artifacts, refs: set<Reference>) {
    && (forall u :: u in units ==> UnitEvidenced(u, units[u], artifacts, refs))
    && (forall r :: r in refs ==> RefOwned(r, units))
    && (forall u, v, uri :: Owns(units, u, uri) && Owns(units, v, uri) ==> u == v)
  }

  // ---- order of work ----

  ghost predicate Started(row: Unit) {
    row.status == Claimed || row.status == Done
  }

  ghost predicate GatherAfterChildren(units: Units) {
    forall u :: u in units && u.GatherUnit? && Started(units[u]) ==> ChildrenDone(units, u.parent)
  }

  /** At most one attempt of a unit is done, and then so is the unit. */
  ghost predicate CommittedOnce(units: Units, attempts: Attempts) {
    && (forall a :: a in attempts && attempts[a].status == AttemptDone ==>
          attempts[a].unitId in units && units[attempts[a].unitId].status == Done)
    && (forall a, b ::
          a in attempts && b in attempts && SameDoneUnit(attempts[a], attempts[b]) ==> a == b)
  }

  ghost predicate SameDoneUnit(a: Attempt, b: Attempt) {
    a.status == AttemptDone && b.status == AttemptDone && a.unitId == b.unitId
  }

  ghost predicate Inv(s: State) {
    && Links(s.slots, s.attempts, s.units)
    && Planned(s.units, s.plans, s.parents)
    && Evidenced(s.units, s.artifacts, s.refs)
    && GatherAfterChildren(s.units)
    && CommittedOnce(s.units, s.attempts)
  }

  // ---- what one transaction may do to a row that stays ----

  /** A unit row keeps its range, and a done row does not change at all. */
  ghost predicate RowStep(was: Unit, now: Unit) {
    now.start == was.start && now.end == was.end && (was.status == Done ==> now == was)
  }

  /** An attempt that is not running is final, and a lease that is over is never extended. */
  ghost predicate AttemptStep(was: Attempt, now: Attempt, time: Time) {
    && now.unitId == was.unitId && now.owner == was.owner
    && (was.status != Running ==> now.status == was.status)
    && (was.status == Running && now.status == Running && LeaseOver(was.lease, time) ==> now.lease == was.lease)
  }

  ghost predicate RowsStep(units: Units, units': Units) {
    forall u :: u in units && u in units' ==> RowStep(units[u], units'[u])
  }

  ghost predicate AttemptsStep(attempts: Attempts, attempts': Attempts, time: Time) {
    forall a :: a in attempts && a in attempts' ==> AttemptStep(attempts[a], attempts'[a], time)
  }

  /** Only a purge of its parent (`gone`) removes a unit. */
  ghost predicate UnitsStay(units: Units, units': Units, gone: set<TaskId>) {
    forall u :: u in units && u.parent !in gone ==> u in units'
  }

  /** A unit only becomes done with an artifact nobody referred to. */
  ghost predicate DoneFresh(s: State, units': Units) {
    forall u :: u in units' && units'[u].status == Done ==>
      (u in s.units && s.units[u].status == Done)
        || (units'[u].result.Some? && !Referenced(s, units'[u].result.value.uri))
  }

  /** What one transaction never undoes. */
  ghost predicate Monotone(s: State, s': State, gone: set<TaskId>) {
    && RowsStep(s.units, s'.units) && AttemptsStep(s.attempts, s'.attempts, s.now)
    && UnitsStay(s.units, s'.units, gone) && DoneFresh(s, s'.units) && s.now <= s'.now
  }

  // ---- transactions that only move work ----

  /** Same units, same evidence; only `u` can become claimed. */
  ghost predicate UnitsWork(units: Units, units': Units, u: UnitId) {
    && units'.Keys == units.Keys
    && forall v :: v in units ==> UnitWork(v, units[v], units'[v], u)
  }

  ghost predicate UnitWork(v: UnitId, was: Unit, now: Unit, u: UnitId) {
    && RowStep(was, now) && now.result == was.result && (was.status == Done <==> now.status == Done)
    && (now.status == Claimed ==> was.status == Claimed || v == u)
  }

  /** No attempt disappears or becomes done, and only running ones appear. */
  ghost predicate AttemptsWork(attempts: Attempts, attempts': Attempts, time: Time) {
    && attempts.Keys <= attempts'.Keys
    && (forall a :: a in attempts' ==> AttemptWork(a, attempts, attempts'[a], time))
  }

  ghost predicate AttemptWork(a: AttemptId, attempts: Attempts, now: Attempt, time: Time) {
    if a in attempts then AttemptStep(attempts[a], now, time)
      && (now.status == AttemptDone ==> attempts[a].status == AttemptDone)
    else now.status == Running
  }

  ghost predicate OtherTablesSame(s: State, s': State) {
    s'.artifacts == s.artifacts && s'.refs == s.refs && s'.parents == s.parents && s'.now == s.now
      && s'.plans == s.plans
  }

  ghost predicate WorkStep(s: State, s': State, u: UnitId) {
    && OtherTablesSame(s, s') && UnitsWork(s.units, s'.units, u)
    && AttemptsWork(s.attempts, s'.attempts, s.now)
  }

  lemma WorkKeepsPlanned(units: Units, units': Units, u: UnitId, plans: Plans, parents: Parents)
    requires Planned(units, plans, parents) && UnitsWork(units, units', u)
    ensures Planned(units', plans, parents)
  {
    forall v | v in units' ensures UnitPlanned(v, units'[v], plans) {
      assert UnitPlanned(v, units[v], plans) && UnitWork(v, units[v], units'[v], u);
    }
    forall t | t in plans ensures PlanFormed(t, plans[t], units', parents) {
      assert PlanFormed(t, plans[t], units, parents);
    }
  }

  lemma WorkKeepsEvidenced(units: Units, units': Units, u: UnitId, artifacts: Artifacts, refs: set<Reference>)
    requires Evidenced(units, artifacts, refs) && UnitsWork(units, units', u)
    ensures Evidenced(units', artifacts, refs)
  {
    forall v, uri ensures Owns(units', v, uri) == Owns(units, v, uri) {
      if v in units { assert UnitWork(v, units[v], units'[v], u); }
    }
    forall v | v in units' ensures UnitEvidenced(v, units'[v], artifacts, refs) {
      assert UnitEvidenced(v, units[v], artifacts, refs) && UnitWork(v, units[v], units'[v], u);
    }
    forall r | r in refs ensures RefOwned(r, units') {
      assert RefOwned(r, units);
    }
  }

  lemma ChildrenStayDone(units: Units, units': Units, t: TaskId)
    requires ChildrenDone(units, t)
    requires forall u :: u in units' && u.parent == t ==> u in units
    requires forall u :: u in units && u.parent == t ==>
      u in units' && (units[u].status == Done ==> units'[u].status == Done)
    ensures ChildrenDone(units', t)
  {
    var w :| w in units && w.parent == t && w.ChildUnit?;
    assert w in units';
  }

  lemma WorkKeepsOrder(units: Units, units': Units, u: UnitId)
    requires GatherAfterChildren(units) && UnitsWork(units, units', u)
    requires u in units && u.GatherUnit? && units'[u].status == Claimed ==> ChildrenDone(units, u.parent)
    ensures GatherAfterChildren(units')
  {
    forall v | v in units' && v.GatherUnit? && Started(units'[v]) ensures ChildrenDone(units', v.parent) {
      assert UnitWork(v, units[v], units'[v], u);
      assert v == u || Started(units[v]);
      forall w | w in units ensures units[w].status == Done ==> units'[w].status == Done {
        assert UnitWork(w, units[w], units'[w], u);
      }
      ChildrenStayDone(units, units', v.parent);
    }
  }

  lemma WorkKeepsOnce(units: Units, attempts: Attempts, units': Units, attempts': Attempts, u: UnitId, time: Time)
    requires CommittedOnce(units, attempts) && UnitsWork(units, units', u) && AttemptsWork(attempts, attempts', time)
    ensures CommittedOnce(units', attempts')
  {
    forall a | a in attempts' && attempts'[a].status == AttemptDone
      ensures a in attempts && attempts[a].status == AttemptDone && attempts[a].unitId == attempts'[a].unitId
      ensures attempts'[a].unitId in units' && units'[attempts'[a].unitId].status == Done
    {
      assert AttemptWork(a, attempts, attempts'[a], time);
      var v := attempts[a].unitId;
      assert UnitWork(v, units[v], units'[v], u);
    }
    forall a, b | a in attempts' && b in attempts' && SameDoneUnit(attempts'[a], attempts'[b]) ensures a == b {
      assert SameDoneUnit(attempts[a], attempts[b]);
    }
  }

  lemma WorkIsMonotone(s: State, s': State, u: UnitId)
    requires WorkStep(s, s', u)
    ensures Monotone(s, s', {})
  {
    forall v | v in s.units
      ensures v in s'.units && RowStep(s.units[v], s'.units[v])
        && (s'.units[v].status == Done <==> s.units[v].status == Done)
    {
      assert UnitWork(v, s.units[v], s'.units[v], u);
    }
    forall a | a in s.attempts && a in s'.attempts ensures AttemptStep(s.attempts[a], s'.attempts[a], s.now) {
      assert AttemptWork(a, s.attempts, s'.attempts[a], s.now);
    }
  }

  /** Moving work keeps every part, provided the links are kept and a gather is only claimed after its children. */
  lemma WorkKeeps(s: State, s': State, u: UnitId)
    requires Inv(s) && WorkStep(s, s', u) && Links(s'.slots, s'.attempts, s'.units)
    requires u in s.units && u.GatherUnit? && s'.units[u].status == Claimed ==> ChildrenDone(s.units, u.parent)
    ensures Inv(s') && Monotone(s, s', {})
  {
    WorkKeepsPlanned(s.units, s'.units, u, s.plans, s.parents);
    WorkKeepsEvidenced(s.units, s'.units, u, s.artifacts, s.refs);
    WorkKeepsOrder(s.units, s'.units, u);
    WorkKeepsOnce(s.units, s.attempts, s'.units, s'.attempts, u, s.now);
    WorkIsMonotone(s, s', u);
  }

  // ---- the working transactions ----

  lemma OpenWorks(s0: State, s: State, u: UnitId, pa: AttemptId, owner: Token, newId: AttemptId, token: Token)
    requires LinksExcept(s.slots, s.attempts, s.units, Some(u)) && u in s.units && s.units[u].active.None?
      && s.units[u].status != Done
    requires WorkStep(s0, s, u) && s0.attempts.Keys == s.attempts.Keys
    ensures var o := OpenAttempt(s, u, pa, owner, newId, token); o.Committed? ==> WorkStep(s0, o.state, u)
  {
    var o := OpenAttempt(s, u, pa, owner, newId, token);
    if o.Committed? {
      var n := FirstFree(s.slots, s.now).value;
      if s.slots[n].holder.Some? {
        EvictKeepsLinks(s, u, n);
        EvictWorks(s0, s, u, n);
        OccupyWorks(s0, Evict(s, s.slots[n].holder.value), u, pa, owner, newId, token, n);
      } else {
        OccupyWorks(s0, s, u, pa, owner, newId, token, n);
      }
    }
  }

  lemma OccupyWorks(s0: State, s: State, u: UnitId, pa: AttemptId, owner: Token, newId: AttemptId, token: Token, n: nat)
    requires WorkStep(s0, s, u) && u in s.units && s.units[u].status != Done && n < |s.slots| && newId !in s.attempts
    ensures WorkStep(s0, Occupy(s, u, pa, owner, newId, token, n), u)
  {
    var s' := Occupy(s, u, pa, owner, newId, token, n);
    forall v | v in s0.units ensures UnitWork(v, s0.units[v], s'.units[v], u) {
      assert UnitWork(v, s0.units[v], s.units[v], u);
    }
    forall a | a in s'.attempts ensures AttemptWork(a, s0.attempts, s'.attempts[a], s0.now) {
      if a != newId { assert AttemptWork(a, s0.attempts, s.attempts[a], s0.now); }
    }
  }

  lemma EvictWorks(s0: State, s: State, u: UnitId, n: nat)
    requires LinksExcept(s.slots, s.attempts, s.units, Some(u)) && u in s.units && s.units[u].active.None?
    requires n < |s.slots| && s.slots[n].holder.Some?
    requires WorkStep(s0, s, u) && s0.attempts.Keys == s.attempts.Keys
    ensures WorkStep(s0, Evict(s, s.slots[n].holder.value), u)
  {
    var id := s.slots[n].holder.value;
    EvictEffect(s, u, n);
    var v := s.attempts[id].unitId;
    EndingWorks(s0.attempts, s.attempts, id, Fenced, s0.now);
    var row := s.units[v].(active := None, status := Pending);
    forall w | w in s0.units ensures UnitWork(w, s0.units[w], s.units[v := row][w], u) {
      assert UnitWork(w, s0.units[w], s.units[w], u);
    }
  }

  lemma EndingWorks(attempts0: Attempts, attempts: Attempts, id: AttemptId, status: AttemptStatus, time: Time)
    requires AttemptsWork(attempts0, attempts, time) && id in attempts0
    requires id in attempts && attempts[id].status == Running && status != Running && status != AttemptDone
    ensures AttemptsWork(attempts0, attempts[id := Ended(attempts[id], status)], time)
  {
    var attempts' := attempts[id := Ended(attempts[id], status)];
    forall a | a in attempts' ensures AttemptWork(a, attempts0, attempts'[a], time) {
      assert AttemptWork(a, attempts0, attempts[a], time);
    }
  }

  /** Every unit and attempt is one step from itself. */
  lemma Idle(s: State, u: UnitId)
    ensures WorkStep(s, s, u)
  {
  }

  lemma ClaimWorks(s: State, t: TaskId, u: UnitId, pa: AttemptId, owner: Token, newId: AttemptId, token: Token)
    requires StateLinks(s)
    ensures WorkStep(s, Settle(s, ClaimUnit(s, t, u, pa, owner, newId, token)), u)
  {
    var o := ClaimUnit(s, t, u, pa, owner, newId, token);
    Idle(s, u);
    if o.Committed? && o.state != s {
      assert UnitLinked(u, s.units[u], s.attempts);
      if s.units[u].active.Some? {
        ReclaimWorks(s, u, pa, owner, newId, token);
      } else {
        OpenWorks(s, s, u, pa, owner, newId, token);
      }
    }
  }

  lemma ReclaimWorks(s: State, u: UnitId, pa: AttemptId, owner: Token, newId: AttemptId, token: Token)
    requires StateLinks(s) && u in s.units && s.units[u].active.Some? && s.units[u].active.value in s.attempts
      && s.units[u].status != Done
    requires OpenAttempt(FenceAttempt(s, s.units[u].active.value, u), u, pa, owner, newId, token).Committed?
    ensures WorkStep(s, OpenAttempt(FenceAttempt(s, s.units[u].active.value, u), u, pa, owner, newId, token).state, u)
  {
    FenceWorks(s, u);
    OpenWorks(s, FenceAttempt(s, s.units[u].active.value, u), u, pa, owner, newId, token);
  }

  lemma FenceWorks(s: State, u: UnitId)
    requires StateLinks(s) && u in s.units && s.units[u].active.Some? && s.units[u].active.value in s.attempts
      && s.units[u].status != Done
    ensures var s' := FenceAttempt(s, s.units[u].active.value, u);
            && WorkStep(s, s', u) && LinksExcept(s'.slots, s'.attempts, s'.units, Some(u))
            && s'.attempts.Keys == s.attempts.Keys && s'.units[u] == s.units[u].(active := None)
  {
    var id := s.units[u].active.value;
    assert UnitLinked(u, s.units[u], s.attempts);
    Idle(s, u);
    EndAttemptEffect(s, id, Fenced, None);
    EndKeepsLinks(s.slots, s.attempts, s.units, None, id, Fenced, s.units[u].(active := None));
    EndingWorks(s.attempts, s.attempts, id, Fenced, s.now);
    var s' := FenceAttempt(s, id, u);
    forall v | v in s.units ensures UnitWork(v, s.units[v], s'.units[v], u) {}
  }

  lemma HeartbeatWorks(s: State, id: AttemptId, token: Token, owner: Token, u: UnitId)
    ensures WorkStep(s, Settle(s, Heartbeat(s, id, token, owner)), u)
  {
    Idle(s, u);
    var s' := Settle(s, Heartbeat(s, id, token, owner));
    forall a | a in s'.attempts ensures AttemptWork(a, s.attempts, s'.attempts[a], s.now) {}
  }

  lemma FinishWorks(s: State, id: AttemptId, token: Token, owner: Token, cancel: bool)
    requires StateLinks(s)
    ensures var o := Finish(s, id, token, owner, cancel); o.Committed? ==> WorkStep(s, o.state, s.attempts[id].unitId)
  {
    var o := Finish(s, id, token, owner, cancel);
    if o.Committed? {
      var u := s.attempts[id].unitId;
      var st := if cancel then AttemptCancelled else AttemptFailed;
      Idle(s, u);
      EndAttemptEffect(s, id, st, None);
      EndingWorks(s.attempts, s.attempts, id, st, s.now);
      LiveClaimIsClaimed(s, id, token, owner);
      UndoneUnitWorks(s.units, u, s.units[u].(status := if cancel then Cancelled else Failed, active := None));
    }
  }

  lemma UndoneUnitWorks(units: Units, u: UnitId, row: Unit)
    requires u in units && units[u].status != Done && row.status != Done
    requires row.start == units[u].start && row.end == units[u].end && row.result == units[u].result
    ensures UnitsWork(units, units[u := row], u)
  {
    forall v | v in units ensures UnitWork(v, units[v], units[u := row][v], u) {}
  }

  /** A live claim is on a claimed unit: the `already done` branches of commit and finish are never taken. */
  lemma LiveClaimIsClaimed(s: State, id: AttemptId, token: Token, owner: Token)
    requires StateLinks(s) && LiveClaim(s, id, token, owner)
    ensures s.units[s.attempts[id].unitId].status == Claimed && s.units[s.attempts[id].unitId].active == Some(id)
  {
    var u := s.attempts[id].unitId;
    assert AttemptLinked(id, s.attempts[id], s.slots, s.units);
    assert UnitLinked(u, s.units[u], s.attempts);
  }

  lemma RetryWorks(s: State, t: TaskId, u: UnitId, pa: AttemptId, owner: Token)
    requires StateLinks(s) && (u in s.units ==> UnitEvidenced(u, s.units[u], s.artifacts, s.refs))
    ensures WorkStep(s, Settle(s, RetryUnit(s, t, u, pa, owner)), u)
  {
    var o := RetryUnit(s, t, u, pa, owner);
    Idle(s, u);
    if o.Committed? && o.state != s {
      assert UnitLinked(u, s.units[u], s.attempts);
      UndoneUnitWorks(s.units, u, Unit(Pending, s.units[u].start, s.units[u].end, None, None));
      if s.units[u].active.Some? {
        var id := s.units[u].active.value;
        EndAttemptEffect(s, id, Fenced, None);
        EndingWorks(s.attempts, s.attempts, id, Fenced, s.now);
      }
    }
  }

  lemma ClaimKeeps(s: State, t: TaskId, u: UnitId, pa: AttemptId, owner: Token, newId: AttemptId, token: Token)
    requires Inv(s)
    ensures var s' := Settle(s, ClaimUnit(s, t, u, pa, owner, newId, token)); Inv(s') && Monotone(s, s', {})
  {
    var s' := Settle(s, ClaimUnit(s, t, u, pa, owner, newId, token));
    ClaimKeepsLinks(s, t, u, pa, owner, newId, token);
    ClaimWorks(s, t, u, pa, owner, newId, token);
    WorkKeeps(s, s', u);
  }

  lemma FinishKeeps(s: State, id: AttemptId, token: Token, owner: Token, cancel: bool)
    requires Inv(s)
    ensures var s' := Settle(s, Finish(s, id, token, owner, cancel)); Inv(s') && Monotone(s, s', {})
  {
    var o := Finish(s, id, token, owner, cancel);
    if o.Committed? {
      FinishKeepsLinks(s, id, token, owner, cancel);
      FinishWorks(s, id, token, owner, cancel);
      LiveClaimIsClaimed(s, id, token, owner);
      WorkKeeps(s, o.state, s.attempts[id].unitId);
    }
  }

  lemma HeartbeatKeeps(s: State, id: AttemptId, token: Token, owner: Token)
    requires Inv(s)
    ensures var s' := Settle(s, Heartbeat(s, id, token, owner)); Inv(s') && Monotone(s, s', {})
  {
    var s' := Settle(s, Heartbeat(s, id, token, owner));
    if s' != s {
      HeartbeatKeepsLinks(s, id, token, owner);
      HeartbeatWorks(s, id, token, owner, s.attempts[id].unitId);
      WorkKeeps(s, s', s.attempts[id].unitId);
    }
  }

  lemma RetryKeeps(s: State, t: TaskId, u: UnitId, pa: AttemptId, owner: Token)
    requires Inv(s)
    ensures var s' := Settle(s, RetryUnit(s, t, u, pa, owner)); Inv(s') && Monotone(s, s', {})
  {
    var s' := Settle(s, RetryUnit(s, t, u, pa, owner));
    if s' != s {
      RetryKeepsLinks(s, t, u, pa, owner);
      RetryWorks(s, t, u, pa, owner);
      WorkKeeps(s, s', u);
    }
  }

  // ---- sealing evidence ----

  lemma SealKeepsPlanned(units: Units, u: UnitId, row: Unit, plans: Plans, parents: Parents)
    requires Planned(units, plans, parents) && u in units && row.start == units[u].start && row.end == units[u].end
    ensures Planned(units[u := row], plans, parents)
  {
    var units' := units[u := row];
    forall v | v in units' ensures UnitPlanned(v, units'[v], plans) {
      assert UnitPlanned(v, units[v], plans);
    }
    forall t | t in plans ensures PlanFormed(t, plans[t], units', parents) {
      assert PlanFormed(t, plans[t], units, parents);
    }
  }

  lemma SealKeepsEvidenced(units: Units, artifacts: Artifacts, refs: set<Reference>, u: UnitId, ev: Evidence,
                           row: Unit, art: Artifact)
    requires Evidenced(units, artifacts, refs) && u in units && units[u].status != Done
    requires row.status == Done && row.result == Some(ev) && ev.rows == row.end - row.start
      && ev.schema == u.digest.schema
    requires art.state == Ready && art.content == ev.content
    requires forall r :: r in refs ==> r.uri != ev.uri
    ensures Evidenced(units[u := row], artifacts[ev.uri := art], refs + {Reference(ev.uri, UnitOwner(u))})
  {
    var units', artifacts', refs' := units[u := row], artifacts[ev.uri := art],
      refs + {Reference(ev.uri, UnitOwner(u))};
    forall v, uri ensures Owns(units', v, uri) <==> Owns(units, v, uri) || (v == u && uri == ev.uri) {
      if v == u { assert UnitEvidenced(u, units[u], artifacts, refs); }
    }
    forall v ensures !Owns(units, v, ev.uri) {
      if v in units { assert UnitEvidenced(v, units[v], artifacts, refs); }
    }
    forall v | v in units' ensures UnitEvidenced(v, units'[v], artifacts', refs') {
      assert UnitEvidenced(v, units[v], artifacts, refs);
      if v != u && units[v].status == Done { assert Owns(units, v, units[v].result.value.uri); }
    }
    forall r | r in refs' ensures RefOwned(r, units') {
      if r in refs { assert RefOwned(r, units); }
    }
  }

  lemma SealKeepsOrder(units: Units, u: UnitId, row: Unit)
    requires GatherAfterChildren(units) && u in units && units[u].status == Claimed && row.status == Done
    ensures GatherAfterChildren(units[u := row])
  {
    var units' := units[u := row];
    forall v | v in units' && v.GatherUnit? && Started(units'[v]) ensures ChildrenDone(units', v.parent) {
      assert Started(units[v]);
      ChildrenStayDone(units, units', v.parent);
    }
  }

  lemma SealKeepsOnce(units: Units, attempts: Attempts, u: UnitId, row: Unit, id: AttemptId)
    requires CommittedOnce(units, attempts) && u in units && units[u].status != Done && row.status == Done
    requires id in attempts && attempts[id].unitId == u
    ensures CommittedOnce(units[u := row], attempts[id := Ended(attempts[id], AttemptDone)])
  {
    var units', attempts' := units[u := row], attempts[id := Ended(attempts[id], AttemptDone)];
    forall a, b | a in attempts' && b in attempts' && SameDoneUnit(attempts'[a], attempts'[b]) ensures a == b {
      if a != id && b != id { assert SameDoneUnit(attempts[a], attempts[b]); }
    }
  }

  function SealedUnit(row: Unit, ev: Evidence): Unit {
    row.(status := Done, result := Some(ev), active := None)
  }

  /** What a successful commit changes, and what it had checked. */
  lemma CommitEffect(s: State, id: AttemptId, token: Token, owner: Token, c: Candidate, ev: Evidence)
    requires StateLinks(s) && CommitEvidence(s, id, token, owner, c, ev).Committed?
    ensures id in s.attempts && s.attempts[id].status == Running && s.attempts[id].unitId in s.units
    ensures ev.uri in s.artifacts && s.artifacts[ev.uri].state == Writing && !Referenced(s, ev.uri)
    ensures var u := s.attempts[id].unitId;
      var s' := CommitEvidence(s, id, token, owner, c, ev).state;
            && s.units[u].status == Claimed && u.parent in s.plans
            && ev.rows == s.units[u].end - s.units[u].start && ev.schema == s.plans[u.parent].schema
            && (u.GatherUnit? ==> ChildrenDone(s.units, u.parent))
            && s'.units == s.units[u := SealedUnit(s.units[u], ev)]
            && s'.attempts == s.attempts[id := Ended(s.attempts[id], AttemptDone)]
            && s'.artifacts == s.artifacts[ev.uri :=
              s.artifacts[ev.uri].(state := Ready, writer := None, content := ev.content)]
            && s'.refs == s.refs + {Reference(ev.uri, UnitOwner(u))}
            && s'.plans == s.plans && s'.parents == s.parents && s'.now == s.now
  {
    LiveClaimIsClaimed(s, id, token, owner);
    SealThenEnd(s, s.attempts[id].unitId, id, ev);
  }

  lemma CommitKeeps(s: State, id: AttemptId, token: Token, owner: Token, c: Candidate, ev: Evidence)
    requires Inv(s)
    ensures var s' := Settle(s, CommitEvidence(s, id, token, owner, c, ev)); Inv(s') && Monotone(s, s', {})
  {
    if CommitEvidence(s, id, token, owner, c, ev).Committed? {
      CommitKeepsLinks(s, id, token, owner, c, ev);
      CommitEffect(s, id, token, owner, c, ev);
      CommitKeepsParts(s, CommitEvidence(s, id, token, owner, c, ev).state, s.attempts[id].unitId, id, ev);
    }
  }

  lemma CommitKeepsParts(s: State, s': State, u: UnitId, id: AttemptId, ev: Evidence)
    requires Planned(s.units, s.plans, s.parents) && Evidenced(s.units, s.artifacts, s.refs)
    requires GatherAfterChildren(s.units) && CommittedOnce(s.units, s.attempts)
    requires id in s.attempts && s.attempts[id].unitId == u && s.attempts[id].status == Running
    requires u in s.units && s.units[u].status == Claimed && u.parent in s.plans
    requires ev.rows == s.units[u].end - s.units[u].start && ev.schema == s.plans[u.parent].schema
    requires ev.uri in s.artifacts && !Referenced(s, ev.uri)
    requires s'.units == s.units[u := SealedUnit(s.units[u], ev)]
      && s'.attempts == s.attempts[id := Ended(s.attempts[id], AttemptDone)]
    requires s'.artifacts ==
      s.artifacts[ev.uri := s.artifacts[ev.uri].(state := Ready, writer := None, content := ev.content)]
    requires s'.refs == s.refs + {Reference(ev.uri, UnitOwner(u))} && s'.plans == s.plans && s'.parents == s.parents
      && s'.now == s.now
    ensures Planned(s'.units, s'.plans, s'.parents) && Evidenced(s'.units, s'.artifacts, s'.refs)
    ensures GatherAfterChildren(s'.units) && CommittedOnce(s'.units, s'.attempts) && Monotone(s, s', {})
  {
    var row := SealedUnit(s.units[u], ev);
    assert UnitPlanned(u, s.units[u], s.plans) && PlanFormed(u.parent, s.plans[u.parent], s.units, s.parents);
    SealKeepsPlanned(s.units, u, row, s.plans, s.parents);
    SealKeepsEvidenced(s.units, s.artifacts, s.refs, u, ev, row, s'.artifacts[ev.uri]);
    SealKeepsOrder(s.units, u, row);
    SealKeepsOnce(s.units, s.attempts, u, row, id);
    SealIsMonotone(s, s', u, row, id);
  }

  lemma SealIsMonotone(s: State, s': State, u: UnitId, row: Unit, id: AttemptId)
    requires row.result.Some? && !Referenced(s, row.result.value.uri)
    requires u in s.units && s.units[u].status != Done && row.start == s.units[u].start && row.end == s.units[u].end
    requires id in s.attempts && s.attempts[id].status == Running
    requires s'.units == s.units[u := row] && s'.attempts == s.attempts[id := Ended(s.attempts[id], AttemptDone)]
      && s'.now == s.now
    ensures Monotone(s, s', {})
  {
  }

  // ---- planning, pausing, purging, and the rest of the system ----

  lemma NewUnitsKeepPlanned(units: Units, plans: Plans, parents: Parents, t: TaskId, p: Plan)
    requires Planned(units, plans, parents) && t !in plans
    requires p.rows == |p.digest.content| && p.schema == p.digest.schema && p.digest.ranges == PartitionRanges(p.rows)
    requires t in parents && parents[t].checkpointKind && parents[t].checkpoint.Some?
      && parents[t].checkpoint.value.content == p.digest.content
    ensures Planned(units + NewUnits(t, p.digest), plans[t := p], parents)
  {
    var units', plans' := units + NewUnits(t, p.digest), plans[t := p];
    forall v | v in units' ensures UnitPlanned(v, units'[v], plans') {
      if v in NewUnits(t, p.digest) {
        assert UnitPlanned(v, NewUnits(t, p.digest)[v], plans');
      } else {
        assert UnitPlanned(v, units[v], plans);
      }
    }
    forall q | q in plans' ensures PlanFormed(q, plans'[q], units', parents) {
      if q == t {
        assert forall i :: 0 <= i < |p.digest.ranges| ==> ChildUnit(t, p.digest, i) in NewUnits(t, p.digest);
      } else {
        assert PlanFormed(q, plans[q], units, parents);
      }
    }
  }

  lemma NewUnitsKeepEvidenced(units: Units, artifacts: Artifacts, refs: set<Reference>, t: TaskId, d: PlanDigest)
    requires Evidenced(units, artifacts, refs) && forall u :: u in NewUnits(t, d) ==> u !in units
    ensures Evidenced(units + NewUnits(t, d), artifacts, refs)
  {
    var added := NewUnits(t, d);
    var units' := units + added;
    forall v, uri ensures Owns(units', v, uri) == Owns(units, v, uri) {}
    forall v | v in units' ensures UnitEvidenced(v, units'[v], artifacts, refs) {
      if v !in added { assert UnitEvidenced(v, units[v], artifacts, refs); }
    }
    forall r | r in refs ensures RefOwned(r, units') { assert RefOwned(r, units); }
  }

  lemma NewUnitsKeepOrder(units: Units, attempts: Attempts, t: TaskId, d: PlanDigest)
    requires GatherAfterChildren(units) && CommittedOnce(units, attempts)
    requires forall u :: u in units ==> u.parent != t
    ensures GatherAfterChildren(units + NewUnits(t, d)) && CommittedOnce(units + NewUnits(t, d), attempts)
  {
    var units' := units + NewUnits(t, d);
    forall v | v in units' && v.GatherUnit? && Started(units'[v]) ensures ChildrenDone(units', v.parent) {
      assert v in units;
      ChildrenStayDone(units, units', v.parent);
    }
  }

  lemma PlanKeeps(s: State, t: TaskId, pa: AttemptId, owner: Token, operation: string, n: int)
    requires Inv(s)
    ensures var s' := Settle(s, CreateOrReopen(s, t, pa, owner, operation, n)); Inv(s') && Monotone(s, s', {})
  {
    var s' := Settle(s, CreateOrReopen(s, t, pa, owner, operation, n));
    if s' != s {
      var c := s.parents[t].checkpoint.value;
      var d := PlanDigest(c.content, c.schema, operation, PartitionRanges(|c.content|));
      PlanKeepsParts(s, s', t, Plan(d, c.id, |c.content|, c.schema, pa, false));
    }
  }

  lemma PlanKeepsParts(s: State, s': State, t: TaskId, p: Plan)
    requires Inv(s) && t !in s.plans && (forall u :: u in NewUnits(t, p.digest) ==> u !in s.units)
    requires p.rows == |p.digest.content| && p.schema == p.digest.schema && p.digest.ranges == PartitionRanges(p.rows)
    requires t in s.parents && s.parents[t].checkpointKind && s.parents[t].checkpoint.Some?
      && s.parents[t].checkpoint.value.content == p.digest.content
    requires s' == s.(plans := s.plans[t := p], units := s.units + NewUnits(t, p.digest))
    ensures Inv(s') && Monotone(s, s', {})
  {
    NewPlanIsSound(s, s', t, p);
    GrowthIsMonotone(s, s', NewUnits(t, p.digest));
  }

  lemma NewPlanIsSound(s: State, s': State, t: TaskId, p: Plan)
    requires Inv(s) && t !in s.plans && (forall u :: u in NewUnits(t, p.digest) ==> u !in s.units)
    requires p.rows == |p.digest.content| && p.schema == p.digest.schema && p.digest.ranges == PartitionRanges(p.rows)
    requires t in s.parents && s.parents[t].checkpointKind && s.parents[t].checkpoint.Some?
      && s.parents[t].checkpoint.value.content == p.digest.content
    requires s' == s.(plans := s.plans[t := p], units := s.units + NewUnits(t, p.digest))
    ensures Inv(s')
  {
    NewUnitsKeepPlanned(s.units, s.plans, s.parents, t, p);
    UnplannedHasNoUnits(s.units, s.plans, s.parents, t);
    NewUnitsKeepRest(s.slots, s.attempts, s.units, s.artifacts, s.refs, t, p.digest);
  }

  lemma NewUnitsKeepRest(slots: Slots, attempts: Attempts, units: Units, artifacts: Artifacts, refs: set<Reference>,
                         t: TaskId, d: PlanDigest)
    requires Links(slots, attempts, units) && Evidenced(units, artifacts, refs) && GatherAfterChildren(units)
      && CommittedOnce(units, attempts)
    requires forall u :: u in units ==> u.parent != t
    ensures var units' := units + NewUnits(t, d);
            Links(slots, attempts, units') && Evidenced(units', artifacts, refs) && GatherAfterChildren(units')
              && CommittedOnce(units', attempts)
  {
    NewUnitsKeepLinks(slots, attempts, units, NewUnits(t, d));
    NewUnitsKeepEvidenced(units, artifacts, refs, t, d);
    NewUnitsKeepOrder(units, attempts, t, d);
  }

  lemma UnplannedHasNoUnits(units: Units, plans: Plans, parents: Parents, t: TaskId)
    requires Planned(units, plans, parents) && t !in plans
    ensures forall u :: u in units ==> u.parent != t
  {
    forall u | u in units ensures u.parent != t { assert UnitPlanned(u, units[u], plans); }
  }

  lemma GrowthIsMonotone(s: State, s': State, added: Units)
    requires s'.units == s.units + added && (forall u :: u in added ==> u !in s.units && added[u].status != Done)
    requires s'.attempts == s.attempts && s'.now == s.now
    ensures Monotone(s, s', {})
  {
  }

  lemma PauseKeeps(s: State, t: TaskId, pa: AttemptId, owner: Token, paused: bool)
    requires Inv(s)
    ensures var s' := Settle(s, SetPaused(s, t, pa, owner, paused)); Inv(s') && Monotone(s, s', {})
  {
    var s' := Settle(s, SetPaused(s, t, pa, owner, paused));
    if s' != s {
      PausedKeepsPlanned(s.units, s.plans, s.parents, t, paused);
    }
  }

  lemma PausedKeepsPlanned(units: Units, plans: Plans, parents: Parents, t: TaskId, paused: bool)
    requires Planned(units, plans, parents) && t in plans
    ensures Planned(units, plans[t := plans[t].(paused := paused)], parents)
  {
    var plans' := plans[t := plans[t].(paused := paused)];
    forall v | v in units ensures UnitPlanned(v, units[v], plans') { assert UnitPlanned(v, units[v], plans); }
    forall p | p in plans' ensures PlanFormed(p, plans'[p], units,
      parents) { assert PlanFormed(p, plans[p], units, parents); }
  }

  lemma PurgeKeepsPlanned(units: Units, plans: Plans, parents: Parents, tasks: set<TaskId>)
    requires Planned(units, plans, parents)
    ensures Planned(UnitsOutside(units, tasks), PlansOutside(plans, tasks), parents)
  {
    var units', plans' := UnitsOutside(units, tasks), PlansOutside(plans, tasks);
    forall v | v in units' ensures UnitPlanned(v, units'[v], plans') { assert UnitPlanned(v, units[v], plans); }
    forall p | p in plans' ensures PlanFormed(p, plans'[p], units',
      parents) { assert PlanFormed(p, plans[p], units, parents); }
  }

  lemma PurgeKeepsEvidenced(s: State, tasks: set<TaskId>)
    requires Evidenced(s.units, s.artifacts, s.refs)
    ensures Evidenced(UnitsOutside(s.units, tasks), s.artifacts, PurgedRefs(s.refs, s.units, tasks))
  {
    var units', refs' := UnitsOutside(s.units, tasks), PurgedRefs(s.refs, s.units, tasks);
    forall v, uri ensures Owns(units', v, uri) == (Owns(s.units, v, uri) && v.parent !in tasks) {}
    forall v | v in units' ensures UnitEvidenced(v, units'[v], s.artifacts, refs') {
      assert UnitEvidenced(v, s.units[v], s.artifacts, s.refs);
    }
    forall r | r in refs' ensures RefOwned(r, units') { assert RefOwned(r, s.units); }
  }

  lemma PurgeKeepsOrder(units: Units, attempts: Attempts, attempts': Attempts, tasks: set<TaskId>)
    requires GatherAfterChildren(units) && CommittedOnce(units, attempts)
    requires forall a :: a in attempts' ==>
      a in attempts && attempts'[a] == attempts[a] && attempts[a].unitId.parent !in tasks
    ensures GatherAfterChildren(UnitsOutside(units, tasks)) && CommittedOnce(UnitsOutside(units, tasks), attempts')
  {
    var units' := UnitsOutside(units, tasks);
    forall v | v in units' && v.GatherUnit? && Started(units'[v]) ensures ChildrenDone(units', v.parent) {
      ChildrenStayDone(units, units', v.parent);
    }
  }

  lemma PurgeKeeps(s: State, tasks: set<TaskId>)
    requires Inv(s)
    ensures Inv(Purge(s, tasks)) && Monotone(s, Purge(s, tasks), tasks)
  {
    var s' := Purge(s, tasks);
    if s' != s {
      PurgeKeepsLinks(s, tasks);
      PurgeKeepsPlanned(s.units, s.plans, s.parents, tasks);
      PurgeKeepsEvidenced(s, tasks);
      forall a | a in s'.attempts ensures s.attempts[a].unitId.parent !in tasks {
        assert AttemptLinked(a, s.attempts[a], s.slots, s.units);
      }
      PurgeKeepsOrder(s.units, s.attempts, s'.attempts, tasks);
    }
  }

  lemma ElseKeeps(s: State, s': State)
    requires Inv(s) && Environment(s, s')
    ensures Inv(s') && Monotone(s, s', {})
  {
    ElseKeepsPlanned(s, s');
    ElseKeepsEvidenced(s, s');
  }

  lemma ElseKeepsPlanned(s: State, s': State)
    requires Planned(s.units, s.plans, s.parents) && Environment(s, s')
    ensures Planned(s.units, s.plans, s'.parents)
  {
    forall p | p in s.plans ensures PlanFormed(p, s.plans[p], s.units,
      s'.parents) { assert PlanFormed(p, s.plans[p], s.units, s.parents); }
  }

  lemma ElseKeepsEvidenced(s: State, s': State)
    requires Evidenced(s.units, s.artifacts, s.refs) && Environment(s, s')
    ensures Evidenced(s.units, s'.artifacts, s'.refs)
  {
    forall v | v in s.units ensures UnitEvidenced(v, s.units[v], s'.artifacts, s'.refs) {
      assert UnitEvidenced(v, s.units[v], s.artifacts, s.refs);
      if s.units[v].status == Done {
        assert Reference(s.units[v].result.value.uri, UnitOwner(v)) in s.refs;
        assert Referenced(s, s.units[v].result.value.uri);
      }
    }
    forall r | r in s'.refs ensures RefOwned(r, s.units) {
      if r.owner.UnitOwner? { assert RefOwned(r, s.units); }
    }
  }

  ghost function Gone(op: Op): set<TaskId> {
    if op.DoPurge? then op.tasks else {}
  }

  /** The transactions on one unit or attempt; the others are on whole plans, or not of the fan-out. */
  predicate ByWorker(op: Op) {
    op.DoClaim? || op.DoHeartbeat? || op.DoFinish? || op.DoCommit? || op.DoRetry?
  }

  lemma OwnerOpKeeps(s: State, op: Op)
    requires Inv(s) && !ByWorker(op)
    ensures Inv(Apply(s, op)) && Monotone(s, Apply(s, op), Gone(op))
  {
    match op
    case DoPlan(t, pa, o, operation, n) => PlanKeeps(s, t, pa, o, operation, n);
    case DoPause(t, pa, o, p) => PauseKeeps(s, t, pa, o, p);
    case DoPurge(tasks) => PurgeKeeps(s, tasks);
    case DoElse(after) => if Environment(s, after) { ElseKeeps(s, after); }
  }

  lemma WorkerOpKeeps(s: State, op: Op)
    requires Inv(s) && ByWorker(op)
    ensures Inv(Apply(s, op)) && Monotone(s, Apply(s, op), Gone(op))
  {
    match op
    case DoClaim(t, u, pa, o, newId, token) => ClaimKeeps(s, t, u, pa, o, newId, token);
    case DoHeartbeat(id, token, o) => HeartbeatKeeps(s, id, token, o);
    case DoFinish(id, token, o, cancel) => FinishKeeps(s, id, token, o, cancel);
    case DoCommit(id, token, o, c, ev) => CommitKeeps(s, id, token, o, c, ev);
    case DoRetry(t, u, pa, o) => RetryKeeps(s, t, u, pa, o);
  }

  /** One transaction, by anyone, keeps the invariant and undoes nothing. */
  lemma ApplyKeeps(s: State, op: Op)
    requires Inv(s)
    ensures Inv(Apply(s, op)) && Monotone(s, Apply(s, op), Gone(op))
  {
    if ByWorker(op) {
      WorkerOpKeeps(s, op);
    } else {
      OwnerOpKeeps(s, op);
    }
  }
}
