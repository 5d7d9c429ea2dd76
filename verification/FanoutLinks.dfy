/**
 * The slot discipline: held slots, running attempts and units with an active
 * attempt match one to one, with equal tokens and leases. Stated on the three
 * tables it concerns, so a transaction on other tables keeps it for free.
 */
module FanoutLinks {
  import opened Options
  import opened FanoutModel

  type Slots = seq<Slot>
  type Attempts = map<AttemptId, Attempt>
  type Units = map<UnitId, Unit>

  /** A held slot belongs to a running attempt that knows its number, token and lease; a free slot is blank. */
  ghost predicate SlotLinked(slot: Slot, n: nat, attempts: Attempts) {
    if slot.holder.None? then slot == FREE_SLOT
    else
      && slot.holder.value in attempts
      && var a := attempts[slot.holder.value];
         && a.status == Running && a.slot == Some(n)
         && a.token == slot.token && a.token.Some? && a.lease == slot.lease && a.lease.Some?
  }

  /** A running attempt holds its slot and is its unit's active attempt; any other attempt holds nothing. */
  ghost predicate AttemptLinked(id: AttemptId, a: Attempt, slots: Slots, units: Units) {
    && a.unitId in units
    && if a.status == Running then
         && a.slot.Some? && a.slot.value < |slots| && slots[a.slot.value].holder == Some(id)
         && units[a.unitId].active == Some(id)
       else a.slot.None? && a.token.None? && a.lease.None?
  }

  /** A unit is claimed exactly when it has an active attempt, and that attempt is running on it. */
  ghost predicate UnitLinked(u: UnitId, row: Unit, attempts: Attempts) {
    && (row.status == Claimed <==> row.active.Some?)
    && ActiveLinked(u, row, attempts)
  }

  ghost predicate ActiveLinked(u: UnitId, row: Unit, attempts: Attempts) {
    row.active.Some? ==>
      && row.active.value in attempts && attempts[row.active.value].status == Running
      && attempts[row.active.value].unitId == u
  }

  /** `except` may be between two updates of its own transaction: its status is not yet settled. */
  ghost predicate LinksExcept(slots: Slots, attempts: Attempts, units: Units, except: Option<UnitId>) {
    && |slots| == SLOT_COUNT
    && (forall n :: 0 <= n < |slots| ==> SlotLinked(slots[n], n, attempts))
    && (forall id :: id in attempts ==> AttemptLinked(id, attempts[id], slots, units))
    && (forall u :: u in units ==> ActiveLinked(u, units[u], attempts))
    && (forall u :: u in units && except != Some(u) ==> UnitLinked(u, units[u], attempts))
  }

  ghost predicate Links(slots: Slots, attempts: Attempts, units: Units) {
    LinksExcept(slots, attempts, units, None)
  }

  ghost predicate StateLinks(s: State) {
    Links(s.slots, s.attempts, s.units)
  }

  function Ended(a: Attempt, status: AttemptStatus): Attempt {
    a.(status := status, token := None, slot := None, lease := None)
  }

  /** Under the links, ending an attempt really frees its slot. */
  lemma EndAttemptEffect(s: State, id: AttemptId, status: AttemptStatus, except: Option<UnitId>)
    requires LinksExcept(s.slots, s.attempts, s.units, except)
    requires id in s.attempts && s.attempts[id].status == Running
    ensures s.attempts[id].slot.Some? && s.attempts[id].slot.value < |s.slots|
    ensures EndAttempt(s, id, status)
         == s.(slots := s.slots[s.attempts[id].slot.value := FREE_SLOT],
               attempts := s.attempts[id := Ended(s.attempts[id], status)])
  {
    var a := s.attempts[id];
    assert AttemptLinked(id, a, s.slots, s.units);
    assert SlotLinked(s.slots[a.slot.value], a.slot.value, s.attempts);
    var mid := s.(attempts := s.attempts[id := a.(status := status)]);
    assert EndAttempt(s, id, status) == ReleaseSlot(mid, id);
    assert mid.attempts[id := Ended(a, status)] == s.attempts[id := Ended(a, status)];
  }

  /** Ending a running attempt and detaching its unit keeps the links; the unit's new status settles it or not. */
  lemma EndKeepsLinks(slots: Slots, attempts: Attempts, units: Units, except: Option<UnitId>, id: AttemptId,
                      status: AttemptStatus, row: Unit)
    requires LinksExcept(slots, attempts, units, except)
    requires id in attempts && attempts[id].status == Running && status != Running
    requires row.active.None? && (row.status == Claimed ==> except.None?)
    requires attempts[id].slot.Some? && attempts[id].slot.value < |slots|
    ensures attempts[id].unitId in units
    ensures LinksExcept(slots[attempts[id].slot.value := FREE_SLOT], attempts[id := Ended(attempts[id], status)],
                        units[attempts[id].unitId := row],
                        if row.status == Claimed then Some(attempts[id].unitId) else except)
  {
    var a := attempts[id];
    var n, u := a.slot.value, a.unitId;
    assert AttemptLinked(id, a, slots, units);
    var slots', attempts', units' := slots[n := FREE_SLOT], attempts[id := Ended(a, status)], units[u := row];
    forall m | 0 <= m < |slots'| ensures SlotLinked(slots'[m], m, attempts') {
      assert SlotLinked(slots[m], m, attempts);
    }
    forall x | x in attempts' ensures AttemptLinked(x, attempts'[x], slots', units') {
      assert AttemptLinked(x, attempts[x], slots, units);
    }
    forall v | v in units' ensures ActiveLinked(v, units'[v], attempts') {
      if v != u {
        assert ActiveLinked(v, units[v], attempts);
      }
    }
    forall v | v in units' && (if row.status == Claimed then Some(u) else except) != Some(v)
      ensures UnitLinked(v, units'[v], attempts')
    {
      if v != u {
        assert UnitLinked(v, units[v], attempts);
      }
    }
  }

  /** Opening a new attempt on a free slot for a unit without an active attempt completes the links. */
  lemma OccupyKeepsLinks(s: State, u: UnitId, pa: AttemptId, owner: Token, newId: AttemptId, token: Token, n: nat)
    requires LinksExcept(s.slots, s.attempts, s.units, Some(u))
    requires u in s.units && s.units[u].active.None?
    requires n < |s.slots| && s.slots[n].holder.None? && newId !in s.attempts
    ensures StateLinks(Occupy(s, u, pa, owner, newId, token, n))
  {
    var s' := Occupy(s, u, pa, owner, newId, token, n);
    forall m | 0 <= m < |s'.slots| ensures SlotLinked(s'.slots[m], m, s'.attempts) {
      assert SlotLinked(s.slots[m], m, s.attempts);
    }
    forall x | x in s'.attempts ensures AttemptLinked(x, s'.attempts[x], s'.slots, s'.units) {
      if x != newId {
        assert AttemptLinked(x, s.attempts[x], s.slots, s.units);
      }
    }
    forall v | v in s'.units ensures UnitLinked(v, s'.units[v], s'.attempts) {
      if v != u {
        assert UnitLinked(v, s.units[v], s.attempts);
      }
    }
  }

  /** Rewriting unit rows without touching `active` or the claimed status changes no link. */
  lemma SettledUnitKeepsLinks(slots: Slots, attempts: Attempts, units: Units, u: UnitId, row: Unit)
    requires Links(slots, attempts, units)
    requires u in units && row.active == units[u].active && (row.status == Claimed <==> row.active.Some?)
    ensures Links(slots, attempts, units[u := row])
  {
    var units' := units[u := row];
    forall x | x in attempts ensures AttemptLinked(x, attempts[x], slots, units') {
      assert AttemptLinked(x, attempts[x], slots, units);
    }
    forall v | v in units' ensures UnitLinked(v, units'[v], attempts) {
      assert UnitLinked(v, units[v], attempts);
    }
  }

  lemma HeartbeatKeepsLinks(s: State, id: AttemptId, token: Token, owner: Token)
    requires StateLinks(s)
    ensures StateLinks(Settle(s, Heartbeat(s, id, token, owner)))
  {
    var s' := Settle(s, Heartbeat(s, id, token, owner));
    if s' != s {
      forall m | 0 <= m < |s'.slots| ensures SlotLinked(s'.slots[m], m, s'.attempts) {
        assert SlotLinked(s.slots[m], m, s.attempts);
      }
      forall x | x in s'.attempts ensures AttemptLinked(x, s'.attempts[x], s'.slots, s'.units) {
        assert AttemptLinked(x, s.attempts[x], s.slots, s.units);
      }
      forall v | v in s'.units ensures UnitLinked(v, s'.units[v], s'.attempts) {
        assert UnitLinked(v, s.units[v], s.attempts);
      }
    }
  }

  lemma NewUnitsKeepLinks(slots: Slots, attempts: Attempts, units: Units, fresh': Units)
    requires Links(slots, attempts, units)
    requires forall u :: u in fresh' ==> u !in units && fresh'[u].active.None? && fresh'[u].status != Claimed
    ensures Links(slots, attempts, units + fresh')
  {
    var units' := units + fresh';
    forall x | x in attempts ensures AttemptLinked(x, attempts[x], slots, units') {
      assert AttemptLinked(x, attempts[x], slots, units);
    }
    forall v | v in units' ensures UnitLinked(v, units'[v], attempts) {
      if v in units {
        assert UnitLinked(v, units[v], attempts);
      }
    }
  }

  lemma PurgeKeepsLinks(s: State, tasks: set<TaskId>)
    requires StateLinks(s)
    ensures StateLinks(Purge(s, tasks))
  {
    var s' := Purge(s, tasks);
    if s' != s {
      forall m | 0 <= m < |s'.slots| ensures SlotLinked(s'.slots[m], m, s'.attempts) {
        assert SlotLinked(s.slots[m], m, s.attempts);
      }
      forall x | x in s'.attempts ensures AttemptLinked(x, s'.attempts[x], s'.slots, s'.units) {
        assert AttemptLinked(x, s.attempts[x], s.slots, s.units);
      }
      forall v | v in s'.units ensures UnitLinked(v, s'.units[v], s'.attempts) {
        assert UnitLinked(v, s.units[v], s.attempts);
      }
    }
  }

  /** What a successful claim did, step by step: maybe fence its own stale attempt, maybe evict another, then occupy. */
  lemma ClaimKeepsLinks(s: State, task: TaskId, u: UnitId, pa: AttemptId, owner: Token, newId: AttemptId, token: Token)
    requires StateLinks(s)
    ensures StateLinks(Settle(s, ClaimUnit(s, task, u, pa, owner, newId, token)))
  {
    var o := ClaimUnit(s, task, u, pa, owner, newId, token);
    if o.Committed? && o.state != s {
      assert UnitLinked(u, s.units[u], s.attempts);
      if s.units[u].active.Some? {
        ReclaimKeepsLinks(s, u, pa, owner, newId, token);
      } else {
        OpenKeepsLinks(s, u, pa, owner, newId, token);
      }
    }
  }

  lemma FenceKeepsLinks(s: State, u: UnitId)
    requires StateLinks(s) && u in s.units && s.units[u].active.Some? && s.units[u].active.value in s.attempts
    ensures var s1 := FenceAttempt(s, s.units[u].active.value, u);
            LinksExcept(s1.slots, s1.attempts, s1.units, Some(u)) && u in s1.units && s1.units[u].active.None?
  {
    var id := s.units[u].active.value;
    assert UnitLinked(u, s.units[u], s.attempts);
    EndAttemptEffect(s, id, Fenced, None);
    EndKeepsLinks(s.slots, s.attempts, s.units, None, id, Fenced, s.units[u].(active := None));
  }

  lemma ReclaimKeepsLinks(s: State, u: UnitId, pa: AttemptId, owner: Token, newId: AttemptId, token: Token)
    requires StateLinks(s) && u in s.units && s.units[u].active.Some? && s.units[u].active.value in s.attempts
    ensures var o := OpenAttempt(FenceAttempt(s, s.units[u].active.value, u), u, pa, owner, newId, token);
            o.Committed? ==> StateLinks(o.state)
  {
    FenceKeepsLinks(s, u);
    OpenKeepsLinks(FenceAttempt(s, s.units[u].active.value, u), u, pa, owner, newId, token);
  }

  lemma EvictEffect(s: State, u: UnitId, n: nat)
    requires LinksExcept(s.slots, s.attempts, s.units, Some(u))
    requires u in s.units && s.units[u].active.None?
    requires n < |s.slots| && s.slots[n].holder.Some?
    ensures var id := s.slots[n].holder.value;
            && id in s.attempts && s.attempts[id].status == Running && s.attempts[id].slot == Some(n)
            && var v := s.attempts[id].unitId;
               && v in s.units && v != u && s.units[v].status == Claimed
               && Evict(s, id) == s.(slots := s.slots[n := FREE_SLOT],
                                     attempts := s.attempts[id := Ended(s.attempts[id], Fenced)],
                                     units := s.units[v := s.units[v].(active := None, status := Pending)])
  {
    var id := s.slots[n].holder.value;
    assert SlotLinked(s.slots[n], n, s.attempts);
    assert AttemptLinked(id, s.attempts[id], s.slots, s.units);
    var v := s.attempts[id].unitId;
    assert UnitLinked(v, s.units[v], s.attempts);
    EndAttemptEffect(s, id, Fenced, Some(u));
  }

  lemma EvictKeepsLinks(s: State, u: UnitId, n: nat)
    requires LinksExcept(s.slots, s.attempts, s.units, Some(u))
    requires u in s.units && s.units[u].active.None?
    requires n < |s.slots| && s.slots[n].holder.Some?
    ensures var s' := Evict(s, s.slots[n].holder.value);
            && LinksExcept(s'.slots, s'.attempts, s'.units, Some(u))
            && u in s'.units && s'.units[u] == s.units[u] && s'.slots == s.slots[n := FREE_SLOT]
  {
    EvictEffect(s, u, n);
    var id := s.slots[n].holder.value;
    EndKeepsLinks(s.slots, s.attempts, s.units, Some(u), id, Fenced,
      s.units[s.attempts[id].unitId].(active := None, status := Pending));
  }

  lemma OpenKeepsLinks(s: State, u: UnitId, pa: AttemptId, owner: Token, newId: AttemptId, token: Token)
    requires LinksExcept(s.slots, s.attempts, s.units, Some(u))
    requires u in s.units && s.units[u].active.None?
    ensures var o := OpenAttempt(s, u, pa, owner, newId, token); o.Committed? ==> StateLinks(o.state)
  {
    var o := OpenAttempt(s, u, pa, owner, newId, token);
    if o.Committed? {
      var n := FirstFree(s.slots, s.now).value;
      if s.slots[n].holder.Some? {
        EvictKeepsLinks(s, u, n);
        OccupyKeepsLinks(Evict(s, s.slots[n].holder.value), u, pa, owner, newId, token, n);
      } else {
        OccupyKeepsLinks(s, u, pa, owner, newId, token, n);
      }
    }
  }

  lemma FinishKeepsLinks(s: State, id: AttemptId, token: Token, owner: Token, cancel: bool)
    requires StateLinks(s)
    ensures StateLinks(Settle(s, Finish(s, id, token, owner, cancel)))
  {
    var o := Finish(s, id, token, owner, cancel);
    if o.Committed? {
      var u := s.attempts[id].unitId;
      var st := if cancel then AttemptCancelled else AttemptFailed;
      EndAttemptEffect(s, id, st, None);
      EndKeepsLinks(s.slots, s.attempts, s.units, None, id, st,
        s.units[u].(status := if cancel then Cancelled else Failed, active := None));
    }
  }

  lemma CommitKeepsLinks(s: State, id: AttemptId, token: Token, owner: Token, c: Candidate, ev: Evidence)
    requires StateLinks(s)
    ensures StateLinks(Settle(s, CommitEvidence(s, id, token, owner, c, ev)))
  {
    var o := CommitEvidence(s, id, token, owner, c, ev);
    if o.Committed? && o.state != s {
      var u := s.attempts[id].unitId;
      SealThenEnd(s, u, id, ev);
      EndKeepsLinks(s.slots, s.attempts, s.units, None, id, AttemptDone,
        s.units[u].(status := Done, result := Some(ev), active := None));
    }
  }

  /** Sealing the evidence does not disturb the slot the attempt gives back. */
  lemma SealThenEnd(s: State, u: UnitId, id: AttemptId, ev: Evidence)
    requires StateLinks(s) && u in s.units && ev.uri in s.artifacts
    requires id in s.attempts && s.attempts[id].status == Running
    ensures s.attempts[id].slot.Some? && s.attempts[id].slot.value < |s.slots|
    ensures EndAttempt(Seal(s, u, ev), id, AttemptDone)
         == Seal(s, u, ev).(slots := s.slots[s.attempts[id].slot.value := FREE_SLOT],
                             attempts := s.attempts[id := Ended(s.attempts[id], AttemptDone)])
  {
    EndAttemptEffect(s, id, AttemptDone, None);
    var a := s.attempts[id];
    var mid := Seal(s, u, ev);
    var mid' := mid.(attempts := mid.attempts[id := a.(status := AttemptDone)]);
    assert SlotLinked(s.slots[a.slot.value], a.slot.value, s.attempts);
    assert AttemptLinked(id, a, s.slots, s.units);
    assert mid'.attempts[id := Ended(a, AttemptDone)] == s.attempts[id := Ended(a, AttemptDone)];
  }

  lemma RetryKeepsLinks(s: State, task: TaskId, u: UnitId, pa: AttemptId, owner: Token)
    requires StateLinks(s)
    ensures StateLinks(Settle(s, RetryUnit(s, task, u, pa, owner)))
  {
    var o := RetryUnit(s, task, u, pa, owner);
    if o.Committed? && o.state != s {
      assert UnitLinked(u, s.units[u], s.attempts);
      var row := Unit(Pending, s.units[u].start, s.units[u].end, None, None);
      if s.units[u].active.Some? {
        var id := s.units[u].active.value;
        EndAttemptEffect(s, id, Fenced, None);
        EndKeepsLinks(s.slots, s.attempts, s.units, None, id, Fenced, row);
      } else {
        SettledUnitKeepsLinks(s.slots, s.attempts, s.units, u, row);
      }
    }
  }

  // ---- consequences ----

  ghost function RunningAttempts(s: State): set<AttemptId> {
    set a | a in s.attempts && s.attempts[a].status == Running
  }

  ghost function HeldSlots(s: State): set<nat> {
    set n | 0 <= n < |s.slots| && s.slots[n].holder.Some?
  }

  ghost function ActiveUnits(s: State): set<UnitId> {
    set u | u in s.units && s.units[u].active.Some?
  }

  /** Where the links hold, the attempt-to-slot and attempt-to-unit maps are bijections. */
  lemma Bijection(s: State)
    requires StateLinks(s)
    ensures forall a :: a in RunningAttempts(s) ==>
              && s.attempts[a].slot.Some? && s.attempts[a].slot.value in HeldSlots(s)
              && s.slots[s.attempts[a].slot.value] == Slot(Some(a), s.attempts[a].token, s.attempts[a].lease)
              && s.attempts[a].unitId in ActiveUnits(s) && s.units[s.attempts[a].unitId].active == Some(a)
    ensures forall n :: n in HeldSlots(s) ==>
      s.slots[n].holder.value in RunningAttempts(s) && s.attempts[s.slots[n].holder.value].slot == Some(n)
    ensures forall u :: u in ActiveUnits(s) ==>
      s.units[u].active.value in RunningAttempts(s) && s.attempts[s.units[u].active.value].unitId == u
    ensures forall u :: u in s.units ==> (s.units[u].status == Claimed <==> u in ActiveUnits(s))
  {
    forall a | a in RunningAttempts(s)
      ensures s.attempts[a].slot.Some? && s.attempts[a].slot.value in HeldSlots(s)
      ensures s.slots[s.attempts[a].slot.value] == Slot(Some(a), s.attempts[a].token, s.attempts[a].lease)
      ensures s.attempts[a].unitId in ActiveUnits(s) && s.units[s.attempts[a].unitId].active == Some(a)
    {
      assert AttemptLinked(a, s.attempts[a], s.slots, s.units);
      assert SlotLinked(s.slots[s.attempts[a].slot.value], s.attempts[a].slot.value, s.attempts);
    }
    forall n | n in HeldSlots(s)
      ensures s.slots[n].holder.value in RunningAttempts(s) && s.attempts[s.slots[n].holder.value].slot == Some(n)
    {
      assert SlotLinked(s.slots[n], n, s.attempts);
    }
    forall u | u in s.units
      ensures s.units[u].status == Claimed <==> u in ActiveUnits(s)
      ensures u in ActiveUnits(s) ==>
        s.units[u].active.value in RunningAttempts(s) && s.attempts[s.units[u].active.value].unitId == u
    {
      assert UnitLinked(u, s.units[u], s.attempts);
    }
  }

  lemma InjectionBound<A(!new), B(!new)>(xs: set<A>, f: map<A, B>, ys: set<B>)
    requires forall x :: x in xs ==> x in f && f[x] in ys
    requires forall x, y :: x in xs && y in xs && f[x] == f[y] ==> x == y
    ensures |xs| <= |ys|
  {
    if xs != {} {
      var x :| x in xs;
      InjectionBound(xs - {x}, f, ys - {f[x]});
    }
  }

  /** At most four attempts run at once, over all plans, and no unit has two. */
  lemma AtMostFourRun(s: State)
    requires StateLinks(s)
    ensures |RunningAttempts(s)| <= 4
    ensures forall a, b ::
      a in RunningAttempts(s) && b in RunningAttempts(s) && s.attempts[a].unitId == s.attempts[b].unitId ==> a == b
  {
    forall a | a in RunningAttempts(s)
      ensures s.attempts[a].slot.Some? && s.attempts[a].slot.value < 4
        && s.slots[s.attempts[a].slot.value].holder == Some(a)
      ensures s.attempts[a].unitId in s.units && s.units[s.attempts[a].unitId].active == Some(a)
    {
      assert AttemptLinked(a, s.attempts[a], s.slots, s.units);
    }
    var f := map a | a in RunningAttempts(s) :: s.attempts[a].slot.value;
    InjectionBound(RunningAttempts(s), f, {0, 1, 2, 3});
  }
}
