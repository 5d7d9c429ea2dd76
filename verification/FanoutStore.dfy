/**
 * The transactions as the program runs them: rows are updated one field at a
 * time, in the program's order. Each method is proved to leave exactly the
 * state its transaction function describes, or to raise with nothing changed.
 */
module FanoutStore {
  import opened Options
  import opened FanoutModel
  import opened FanoutAudit

  datatype Result<+A> = Ok(value: A) | Error(error: FanoutModel.Error)

  function ResultOf<A>(o: Outcome<A>): Result<A> {
    if o.Committed? then Ok(o.value) else Error(o.error)
  }

  lemma SlotsGivenBack(s: State, tasks: set<TaskId>, victims: set<AttemptId>, slots: seq<Slot>)
    requires victims == set a | a in s.attempts && s.attempts[a].unitId in s.units
      && s.attempts[a].unitId.parent in tasks
    requires |slots| == |s.slots|
    requires forall n :: 0 <= n < |slots| ==> slots[n] == if HeldBy(s.slots, s.attempts, victims, n) then FREE_SLOT
      else s.slots[n]
    ensures slots == PurgedSlots(s, tasks)
  {
  }

  lemma SurvivorsUntouched(was: map<AttemptId, Attempt>, now: map<AttemptId, Attempt>, units: map<UnitId, Unit>,
                           tasks: set<TaskId>)
    requires now.Keys == was.Keys
    requires forall a :: a in was ==> now[a].unitId == was[a].unitId
    requires forall a :: a in was && !(was[a].unitId in units && was[a].unitId.parent in tasks) ==> now[a] == was[a]
    ensures PurgedAttempts(now, units, tasks) == PurgedAttempts(was, units, tasks)
  {
  }

  lemma OneMoreChild(units: map<UnitId, Unit>, task: TaskId, d: PlanDigest, i: nat)
    requires i < |d.ranges|
    ensures (units + ChildRows(task, d, i))[ChildUnit(task, d, i) :=
      Unit(Pending, d.ranges[i].start, d.ranges[i].end, None, None)]
         == units + ChildRows(task, d, i + 1)
  {
    var row := Unit(Pending, d.ranges[i].start, d.ranges[i].end, None, None);
    assert ChildRows(task, d, i + 1) == ChildRows(task, d, i)[ChildUnit(task, d, i) := row];
  }

  class Store {
    var now: Time
    var parents: map<TaskId, Parent>
    var parentAttempts: map<AttemptId, ParentAttempt>
    var plans: map<TaskId, Plan>
    var units: map<UnitId, Unit>
    var attempts: map<AttemptId, Attempt>
    var slots: seq<Slot>
    var artifacts: map<Uri, Artifact>
    var refs: set<Reference>

    ghost function Model(): State
      reads this
    {
      State(now, parents, parentAttempts, plans, units, attempts, slots, artifacts, refs)
    }

    predicate Fenced(task: TaskId, pa: AttemptId, owner: Token)
      reads this
      ensures Fenced(task, pa, owner) == FenceOk(Model(), task, pa, owner)
    {
      && task in parents && pa in parentAttempts && parents[task].checkpointKind
      && parentAttempts[pa].task == task && parents[task].status == TaskRunning && !parents[task].cancelRequested
      && parentAttempts[pa].running && parentAttempts[pa].owner == Some(owner)
      && parentAttempts[pa].lease.Some? && parentAttempts[pa].lease.value > now
    }

    /** `_release_slot`. */
    method ReleaseSlot(id: AttemptId)
      requires id in attempts
      modifies this`slots, this`attempts
      ensures Model() == FanoutModel.ReleaseSlot(old(Model()), id)
    {
      var attempt := attempts[id];
      if attempt.slot.None? {
        return;
      }
      var n := attempt.slot.value;
      if n < |slots| && slots[n].holder == Some(id) && slots[n].token == attempt.token {
        slots := slots[n := FREE_SLOT];
      }
      attempts := attempts[id := attempt.(token := None, slot := None, lease := None)];
    }

    /** The status first, then the slot, as every path that ends an attempt does. */
    method EndAttempt(id: AttemptId, status: AttemptStatus)
      requires id in attempts
      modifies this`slots, this`attempts
      ensures Model() == FanoutModel.EndAttempt(old(Model()), id, status)
    {
      attempts := attempts[id := attempts[id].(status := status)];
      ReleaseSlot(id);
    }

    method CreateOrReopenPlan(task: TaskId, pa: AttemptId, owner: Token, operation: string, partitions: int)
      returns (r: Result<PlanDoc>)
      modifies this`plans, this`units
      ensures var o := CreateOrReopen(old(Model()), task, pa, owner, operation, partitions);
              Model() == Settle(old(Model()), o) && r == ResultOf(o)
    {
      if operation != OPERATION_ID || partitions != REQUESTED_PARTITIONS { return Error(UnsupportedContract); }
      if !Fenced(task, pa, owner) { return Error(StaleParent); }
      if parents[task].checkpoint.None? { return Error(NoCommittedCheckpoint); }
      var c := parents[task].checkpoint.value;
      var _, ranges := Partition.ComputeRanges(|c.content|);
      var digest := PlanDigest(c.content, c.schema, operation, ranges);
      if task in plans {
        var existing := plans[task];
        if existing.digest != digest || existing.checkpointId != c.id || existing.rows != |c.content|
          || existing.schema != c.schema {
          return Error(PlanConflict);
        }
        return Ok(PlanDoc(task, existing, UnitsOf(units, task)));
      }
      var clash := exists u :: u in NewUnits(task, digest) && u in units;
      if clash { return Error(DuplicateId); }
      plans := plans[task := Plan(digest, c.id, |c.content|, c.schema, pa, false)];
      AddUnits(task, digest);
      r := Ok(PlanDoc(task, plans[task], UnitsOf(units, task)));
    }

    /** One pending child per range, then the gather. */
    method AddUnits(task: TaskId, digest: PlanDigest)
      modifies this`units
      ensures units == old(units) + NewUnits(task, digest)
    {
      var ranges := digest.ranges;
      for i := 0 to |ranges|
        invariant units == old(units) + ChildRows(task, digest, i)
      {
        OneMoreChild(old(units), task, digest, i);
        units := units[ChildUnit(task, digest, i) := Unit(Pending, ranges[i].start, ranges[i].end, None, None)];
      }
      units := units[GatherUnit(task, digest) := Unit(Pending, 0, |digest.content|, None, None)];
    }

    method SetPaused(task: TaskId, pa: AttemptId, owner: Token, paused: bool) returns (r: Result<PlanDoc>)
      modifies this`plans
      ensures var o := FanoutModel.SetPaused(old(Model()), task, pa, owner, paused);
              Model() == Settle(old(Model()), o) && r == ResultOf(o)
    {
      if !Fenced(task, pa, owner) { return Error(StaleParent); }
      if task !in plans { return Error(NoPlan); }
      plans := plans[task := plans[task].(paused := paused)];
      r := Ok(PlanDoc(task, plans[task], UnitsOf(units, task)));
    }

    /** The scan over slot rows in slot order. */
    method FindFree() returns (r: Option<nat>)
      ensures r == FirstFree(slots, now)
    {
      for n := 0 to |slots|
        invariant FirstFree(slots, now) ==
          match FirstFree(slots[n..], now) case None => None case Some(i) => Some(i + n)
      {
        assert slots[n..][0] == slots[n] && slots[n..][1..] == slots[n + 1..];
        if SlotFree(slots[n], now) {
          return Some(n);
        }
      }
      r := None;
    }

    method ClaimUnit(task: TaskId, u: UnitId, pa: AttemptId, owner: Token, newId: AttemptId, token: Token)
      returns (r: Result<AttemptId>)
      modifies this`units, this`attempts, this`slots
      ensures var o := FanoutModel.ClaimUnit(old(Model()), task, u, pa, owner, newId, token);
              Model() == Settle(old(Model()), o) && r == ResultOf(o)
    {
      if !Fenced(task, pa, owner) { return Error(StaleParent); }
      if task !in plans || u !in units || u.parent != task { return Error(NotInPlan); }
      if plans[task].paused || parents[task].cancelRequested { return Error(ClaimsPaused); }
      if units[u].status == Done { return Error(AlreadyDone); }
      if u.GatherUnit? && !ChildrenDone(units, task) { return Error(GatherTooEarly); }
      var savedUnits, savedAttempts, savedSlots := units, attempts, slots;
      if units[u].active.Some? && units[u].active.value in attempts {
        var id := units[u].active.value;
        if attempts[id].status == Running {
          var lease := attempts[id].lease;
          if attempts[id].owner == owner && attempts[id].token.Some? && !LeaseOver(lease, now) { return Ok(id); }
          if !LeaseOver(lease, now) { return Error(HeldElsewhere); }
          EndAttempt(id, FanoutModel.Fenced);
          units := units[u := units[u].(active := None)];
        }
      }
      r := OpenAttempt(u, pa, owner, newId, token);
      if r.Error? {
        // the session rolls the fencing back
        units, attempts, slots := savedUnits, savedAttempts, savedSlots;
      }
    }

    /** The second half of a claim: find a slot, evict a stale holder, insert the attempt, take slot and unit. */
    method OpenAttempt(u: UnitId, pa: AttemptId, owner: Token, newId: AttemptId, token: Token)
      returns (r: Result<AttemptId>)
      requires u in units
      modifies this`units, this`attempts, this`slots
      ensures var o := FanoutModel.OpenAttempt(old(Model()), u, pa, owner, newId, token);
              r == ResultOf(o) && (o.Committed? ==> Model() == o.state)
    {
      if |slots| != SLOT_COUNT { return Error(SlotsCorrupt); }
      var free := FindFree();
      if free.None? { return Error(NoFreeSlot); }
      var n := free.value;
      if slots[n].holder.Some? {
        Evict(slots[n].holder.value);
      }
      if newId in attempts { return Error(DuplicateId); }
      Occupy(u, pa, owner, newId, token, n);
      r := Ok(newId);
    }

    method Evict(stale: AttemptId)
      modifies this`units, this`attempts, this`slots
      ensures Model() == FanoutModel.Evict(old(Model()), stale)
      ensures |slots| == old(|slots|) && units.Keys == old(units.Keys)
    {
      if stale in attempts && attempts[stale].status == Running {
        EndAttempt(stale, FanoutModel.Fenced);
        var v := attempts[stale].unitId;
        if v in units && units[v].active == Some(stale) {
          units := units[v := units[v].(active := None)];
          if units[v].status == Claimed {
            units := units[v := units[v].(status := Pending)];
          }
        }
      }
    }

    method Occupy(u: UnitId, pa: AttemptId, owner: Token, newId: AttemptId, token: Token, n: nat)
      requires u in units && n < |slots|
      modifies this`units, this`attempts, this`slots
      ensures Model() == FanoutModel.Occupy(old(Model()), u, pa, owner, newId, token, n)
    {
      var until := now + LEASE_SECONDS;
      attempts := attempts[newId := Attempt(u, pa, Running, owner, Some(token), Some(n), Some(until))];
      slots := slots[n := Slot(Some(newId), Some(token), Some(until))];
      units := units[u := units[u].(status := Claimed, active := Some(newId))];
    }

    method HeartbeatAttempt(id: AttemptId, token: Token, owner: Token) returns (alive: bool)
      modifies this`attempts, this`slots
      ensures Heartbeat(old(Model()), id, token, owner) == Committed(Model(), alive)
    {
      if id !in attempts { return false; }
      var a := attempts[id];
      if a.status != Running || a.owner != owner || a.token != Some(token) || a.slot.None? { return false; }
      if LeaseOver(a.lease, now) { return false; }
      var n := a.slot.value;
      if n >= |slots| || slots[n].holder != Some(id) || slots[n].token != a.token { return false; }
      var until := now + LEASE_SECONDS;
      attempts := attempts[id := a.(lease := Some(until))];
      slots := slots[n := slots[n].(lease := Some(until))];
      alive := true;
    }

    predicate Live(id: AttemptId, token: Token, owner: Token)
      reads this
      ensures Live(id, token, owner) == LiveClaim(Model(), id, token, owner)
    {
      && id in attempts
      && var a := attempts[id];
         && a.unitId in units && a.unitId.parent in plans && a.unitId.parent in parents
         && a.status == Running && a.owner == owner && a.token == Some(token)
         && !LeaseOver(a.lease, now) && a.slot.Some?
         && !plans[a.unitId.parent].paused && !parents[a.unitId.parent].cancelRequested
         && a.slot.value < |slots| && slots[a.slot.value].holder == Some(id) && slots[a.slot.value].token == a.token
    }

    method Finish(id: AttemptId, token: Token, owner: Token, cancel: bool) returns (r: Result<AttemptId>)
      modifies this`units, this`attempts, this`slots
      ensures var o := FanoutModel.Finish(old(Model()), id, token, owner, cancel);
              Model() == Settle(old(Model()), o) && r == ResultOf(o)
    {
      if id !in attempts { return Error(NoAttempt); }
      if !Live(id, token, owner) { return Error(StaleClaim); }
      var u := attempts[id].unitId;
      if units[u].status == Done { return Error(AlreadyDone); }
      EndAttempt(id, if cancel then AttemptCancelled else AttemptFailed);
      units := units[u := units[u].(status := if cancel then Cancelled else Failed, active := None)];
      r := Ok(id);
    }

    method CommitUnitEvidence(id: AttemptId, token: Token, owner: Token, c: Candidate, ev: Evidence)
      returns (r: Result<PlanDoc>)
      modifies this`units, this`attempts, this`slots, this`artifacts, this`refs
      ensures var o := CommitEvidence(old(Model()), id, token, owner, c, ev);
              Model() == Settle(old(Model()), o) && r == ResultOf(o)
    {
      if ev.rows < 0 || ev.bytes <= 0 || ev.dev < 0 || ev.ino < 0 { return Error(InvalidEvidence); }
      if id !in attempts { return Error(NoAttempt); }
      if !Live(id, token, owner) { return Error(StaleClaim); }
      var u := attempts[id].unitId;
      var task := u.parent;
      if units[u].status == Done {
        if units[u].result != Some(ev) { return Error(ReplayChanged); }
        return Ok(PlanDoc(task, plans[task], UnitsOf(units, task)));
      }
      if ev.rows != units[u].end - units[u].start { return Error(WrongRows); }
      if ev.schema != plans[task].schema { return Error(WrongSchema); }
      if u.GatherUnit? {
        if !ChildrenDone(units, task) || ev.rows != plans[task].rows { return Error(ChildrenMissing); }
      }
      if ev.uri !in artifacts { return Error(NotTheWriter); }
      var art := artifacts[ev.uri];
      if art.namespace != c.namespace || art.state != Writing || art.writer != Some((id, c.writerToken))
        || art.lock != c.lock {
        return Error(NotTheWriter);
      }
      var taken := exists x :: x in refs && x.uri == ev.uri;
      if taken { return Error(AlreadyReferenced); }
      refs := refs + {Reference(ev.uri, UnitOwner(u))};
      artifacts := artifacts[ev.uri := art.(state := Ready, writer := None, content := ev.content)];
      units := units[u := units[u].(status := Done, result := Some(ev), active := None)];
      EndAttempt(id, AttemptDone);
      r := Ok(PlanDoc(task, plans[task], UnitsOf(units, task)));
    }

    method RetryUnit(task: TaskId, u: UnitId, pa: AttemptId, owner: Token) returns (r: Result<PlanDoc>)
      modifies this`units, this`attempts, this`slots, this`refs
      ensures var o := FanoutModel.RetryUnit(old(Model()), task, u, pa, owner);
              Model() == Settle(old(Model()), o) && r == ResultOf(o)
    {
      if !Fenced(task, pa, owner) { return Error(StaleParent); }
      if task !in plans || u !in units || u.parent != task { return Error(NotInPlan); }
      if units[u].status == Done { return Ok(PlanDoc(task, plans[task], UnitsOf(units, task))); }
      if units[u].active.Some? {
        var active := units[u].active.value;
        if active in attempts && attempts[active].status == Running {
          EndAttempt(active, FanoutModel.Fenced);
        }
      }
      if units[u].result.Some? {
        refs := refs - {Reference(units[u].result.value.uri, UnitOwner(u))};
      }
      units := units[u := units[u].(status := Pending, result := None, active := None)];
      r := Ok(PlanDoc(task, plans[task], UnitsOf(units, task)));
    }

    /** `purge_for_delete`: give back the slots, drop the owner references, then delete attempts, units and plans. */
    method PurgeForDelete(tasks: set<TaskId>)
      modifies this`plans, this`units, this`attempts, this`slots, this`refs
      ensures Model() == Purge(old(Model()), tasks)
    {
      if forall t :: t in tasks ==> t !in plans { return; }
      ReleaseAll(tasks);
      DropReferences(tasks);
      attempts := PurgedAttempts(attempts, units, tasks);
      units := UnitsOutside(units, tasks);
      plans := PlansOutside(plans, tasks);
    }

    /** Every attempt of these parents gives its slot back. */
    method ReleaseAll(tasks: set<TaskId>)
      modifies this`attempts, this`slots
      ensures PurgedAttempts(attempts, units, tasks) == PurgedAttempts(old(attempts), units, tasks)
      ensures slots == PurgedSlots(old(Model()), tasks)
    {
      var victims := set a | a in attempts && attempts[a].unitId in units && attempts[a].unitId.parent in tasks;
      ReleaseEach(victims);
      SlotsGivenBack(old(Model()), tasks, victims, slots);
      SurvivorsUntouched(old(attempts), attempts, units, tasks);
    }

    method ReleaseEach(victims: set<AttemptId>)
      requires victims <= attempts.Keys
      modifies this`attempts, this`slots
      ensures attempts.Keys == old(attempts.Keys) && |slots| == old(|slots|)
      ensures forall a :: a in attempts ==>
        attempts[a].unitId == old(attempts[a].unitId) && (a !in victims ==> attempts[a] == old(attempts[a]))
      ensures forall n :: 0 <= n < |slots| ==> slots[n] == if HeldBy(old(slots), old(attempts), victims, n) then
        FREE_SLOT else old(slots)[n]
    {
      var rest := victims;
      while rest != {}
        invariant rest <= victims && attempts.Keys == old(attempts.Keys) && |slots| == old(|slots|)
        invariant forall a :: a in attempts ==>
          attempts[a].unitId == old(attempts[a].unitId) && (a !in victims - rest ==> attempts[a] == old(attempts[a]))
        invariant forall n :: 0 <= n < |slots| ==>
          slots[n] == if HeldBy(old(slots), old(attempts), victims - rest, n) then FREE_SLOT else old(slots)[n]
      {
        var a :| a in rest;
        ReleaseSlot(a);
        rest := rest - {a};
      }
    }

    /** Every committed unit of these parents drops its owner reference. */
    method DropReferences(tasks: set<TaskId>)
      modifies this`refs
      ensures refs == PurgedRefs(old(refs), units, tasks)
    {
      var rest := set u | u in units && u.parent in tasks && units[u].result.Some?;
      while rest != {}
        invariant forall u :: u in rest ==> u in units && units[u].result.Some?
        invariant forall r :: r in refs ==> r in old(refs)
        invariant forall r :: r in old(refs) ==>
          (r !in refs <==> PurgedReference(units, tasks, r) && r.owner.unitId !in rest)
      {
        var u :| u in rest;
        refs := refs - {Reference(units[u].result.value.uri, UnitOwner(u))};
        rest := rest - {u};
      }
    }

    /** One plan of the audit: its parent, its unit set, and its units one by one. */
    method AuditPlan(t: TaskId) returns (ok: bool)
      requires t in plans
      ensures ok <==> PlanAudited(Model(), t)
    {
      if t !in parents || !parents[t].checkpointKind { return false; }
      if |GathersOf(units, t)| != 1 || |ChildrenOf(units, t)| != |plans[t].digest.ranges| { return false; }
      var unchecked := set u | u in units && u.parent == t;
      while unchecked != {}
        invariant forall u :: u in unchecked ==> u in units && u.parent == t
        invariant forall u :: u in units && u.parent == t && u !in unchecked ==>
          u.digest == plans[t].digest && DoneUnitAudited(u, units[u], artifacts, refs)
      {
        var u :| u in unchecked;
        if u.digest != plans[t].digest || !DoneUnitAudited(u, units[u], artifacts, refs) { return false; }
        unchecked := unchecked - {u};
      }
      ok := true;
    }

    /** `restore_audit`: `ok` when it reports, with the number of done units of every plan; not `ok` when it raises. */
    method RestoreAudit() returns (ok: bool, report: map<TaskId, nat>)
      ensures ok <==> AuditPasses(Model())
      ensures ok ==> report == map t | t in plans :: |DoneOf(units, t)|
    {
      report := map[];
      if |slots| != SLOT_COUNT { return false, report; }
      var live: set<UnitId> := {};
      var rest := plans.Keys;
      while rest != {}
        invariant rest <= plans.Keys && report.Keys == plans.Keys - rest
        invariant forall t :: t in report ==> PlanAudited(Model(), t) && report[t] == |DoneOf(units, t)|
        invariant forall u :: u in live <==> u in units && u.parent in plans.Keys - rest && units[u].status == Done
      {
        var t :| t in rest;
        var fine := AuditPlan(t);
        if !fine { return false, report; }
        live := live + DoneOf(units, t);
        report := report[t := |DoneOf(units, t)|];
        rest := rest - {t};
      }
      var owners := set r | r in refs && r.owner.UnitOwner? :: r.owner.unitId;
      ok := owners <= live;
      OwnersAreDone(Model(), live);
    }
  }

  /** With every plan audited, what is left to check is that only done units of known plans own references. */
  lemma OwnersAreDone(s: State, live: set<UnitId>)
    requires |s.slots| == SLOT_COUNT && forall t :: t in s.plans ==> PlanAudited(s, t)
    requires forall u :: u in live <==> u in s.units && u.parent in s.plans && s.units[u].status == Done
    ensures (set r | r in s.refs && r.owner.UnitOwner? :: r.owner.unitId) <= live <==> AuditPasses(s)
  {
    forall r | r in s.refs && r.owner.UnitOwner?
      ensures r.owner.unitId in (set r | r in s.refs && r.owner.UnitOwner? :: r.owner.unitId)
    {
    }
  }

  ghost predicate HeldBy(slots: seq<Slot>, attempts: map<AttemptId, Attempt>, victims: set<AttemptId>, n: nat)
    requires n < |slots|
  {
    var h := slots[n].holder;
    h.Some? && h.value in victims && h.value in attempts && attempts[h.value].slot == Some(n)
      && slots[n].token == attempts[h.value].token
  }
}
