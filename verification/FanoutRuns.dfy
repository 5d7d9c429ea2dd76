/**
 * Safety over whole runs: any interleaving of any transactions, from a state
 * with no fan-out work.
 */
module FanoutRuns {
  import opened Options
  import opened FanoutModel
  import opened FanoutLinks
  import opened FanoutSafety

  lemma InitialInv(s: State)
    requires Initial(s)
    ensures Inv(s)
  {
  }

  /** The invariant holds in every state of every run. */
  lemma {:induction false} RunInv(tr: seq<State>, ops: seq<Op>, n: nat)
    requires Behaviour(tr, ops) && n <= |ops|
    ensures Inv(tr[n])
  {
    if n == 0 {
      InitialInv(tr[0]);
    } else {
      RunInv(tr, ops, n - 1);
      StepKeeps(tr, ops, n - 1);
    }
  }

  /** No transaction of a run undoes anything. */
  lemma RunKeeps(tr: seq<State>, ops: seq<Op>, n: nat)
    requires Behaviour(tr, ops) && n <= |ops|
    ensures Inv(tr[n])
    ensures forall i :: 0 <= i < n ==> Monotone(tr[i], tr[i + 1], Gone(ops[i]))
  {
    RunInv(tr, ops, n);
    forall i | 0 <= i < n ensures Monotone(tr[i], tr[i + 1], Gone(ops[i])) {
      RunInv(tr, ops, i);
      StepKeeps(tr, ops, i);
    }
  }

  lemma StepKeeps(tr: seq<State>, ops: seq<Op>, k: nat)
    requires Behaviour(tr, ops) && k < |ops| && Inv(tr[k])
    ensures Inv(tr[k + 1]) && Monotone(tr[k], tr[k + 1], Gone(ops[k]))
  {
    ApplyKeeps(tr[k], ops[k]);
  }

  /**
   * In every state of every run: held slots, running attempts and active units correspond one to one with
   * equal tokens and leases; at most four attempts run, over all plans; no unit has two.
   */
  lemma SlotDiscipline(tr: seq<State>, ops: seq<Op>, n: nat)
    requires Behaviour(tr, ops) && n <= |ops|
    ensures var r := tr[n];
            && (forall a :: a in RunningAttempts(r) ==>
                  && r.attempts[a].slot.Some? && r.attempts[a].slot.value in HeldSlots(r)
                  && r.slots[r.attempts[a].slot.value] == Slot(Some(a), r.attempts[a].token, r.attempts[a].lease)
                  && r.attempts[a].unitId in ActiveUnits(r) && r.units[r.attempts[a].unitId].active == Some(a))
            && (forall n :: n in HeldSlots(r) ==>
              r.slots[n].holder.value in RunningAttempts(r) && r.attempts[r.slots[n].holder.value].slot == Some(n))
            && (forall u :: u in ActiveUnits(r) ==>
              r.units[u].active.value in RunningAttempts(r) && r.attempts[r.units[u].active.value].unitId == u)
            && (forall u :: u in r.units ==> (r.units[u].status == Claimed <==> u in ActiveUnits(r)))
            && |RunningAttempts(r)| <= 4
  {
    RunKeeps(tr, ops, n);
    AtMostFourRun(tr[n]);
    Bijection(tr[n]);
  }

  // ---- what no run undoes ----

  lemma {:induction false} RowStays(tr: seq<State>, gone: seq<set<TaskId>>, u: UnitId, i: nat, j: nat)
    requires i <= j < |tr| && |gone| >= j
    requires forall k :: 0 <= k < j ==> Monotone(tr[k], tr[k + 1], gone[k])
    requires forall k :: i <= k < j ==> u.parent !in gone[k]
    requires u in tr[i].units && tr[i].units[u].status == Done
    ensures u in tr[j].units && tr[j].units[u] == tr[i].units[u]
  {
    if i < j {
      RowStays(tr, gone, u, i, j - 1);
      assert Monotone(tr[j - 1], tr[j - 1 + 1], gone[j - 1]);
    }
  }

  /** Committed truth is written once: a done unit keeps its row, evidence included, until its parent is purged. */
  lemma DoneIsFinal(tr: seq<State>, ops: seq<Op>, u: UnitId, i: nat, j: nat)
    requires Behaviour(tr, ops) && i <= j <= |ops|
    requires u in tr[i].units && tr[i].units[u].status == Done
    requires forall k :: i <= k < j ==> u.parent !in Gone(ops[k])
    ensures u in tr[j].units && tr[j].units[u] == tr[i].units[u]
  {
    RunKeeps(tr, ops, j);
    RowStays(tr, seq(|ops|, k requires 0 <= k < |ops| => Gone(ops[k])), u, i, j);
  }

  lemma {:induction false} AttemptStays(tr: seq<State>, gone: seq<set<TaskId>>, a: AttemptId, i: nat, j: nat)
    requires i <= j < |tr| && |gone| >= j
    requires forall k :: 0 <= k < j ==> Monotone(tr[k], tr[k + 1], gone[k])
    requires forall k :: i <= k <= j ==> a in tr[k].attempts
    ensures tr[i].attempts[a].status != Running ==> tr[j].attempts[a].status == tr[i].attempts[a].status
    ensures LeaseOver(tr[i].attempts[a].lease, tr[i].now) ==>
              tr[j].attempts[a].status != Running || LeaseOver(tr[j].attempts[a].lease, tr[j].now)
  {
    if i < j {
      AttemptStays(tr, gone, a, i, j - 1);
      assert Monotone(tr[j - 1], tr[j - 1 + 1], gone[j - 1]);
      assert AttemptStep(tr[j - 1].attempts[a], tr[j].attempts[a], tr[j - 1].now);
    }
  }

  /**
   * An attempt that left `running` keeps its final status, and one whose lease ran out is never revived
   * (its row exists until its parent is purged).
   */
  lemma FencedForever(tr: seq<State>, ops: seq<Op>, a: AttemptId, i: nat, j: nat)
    requires Behaviour(tr, ops) && i <= j <= |ops|
    requires forall k :: i <= k <= j ==> a in tr[k].attempts
    ensures tr[i].attempts[a].status != Running ==> tr[j].attempts[a].status == tr[i].attempts[a].status
    ensures LeaseOver(tr[i].attempts[a].lease, tr[i].now) ==>
              tr[j].attempts[a].status != Running || LeaseOver(tr[j].attempts[a].lease, tr[j].now)
  {
    RunKeeps(tr, ops, j);
    AttemptStays(tr, seq(|ops|, k requires 0 <= k < |ops| => Gone(ops[k])), a, i, j);
  }

  lemma PowerlessNow(s: State, a: AttemptId, token: Token, owner: Token, c: Candidate, ev: Evidence, cancel: bool)
    requires a in s.attempts && (s.attempts[a].status != Running || LeaseOver(s.attempts[a].lease, s.now))
    ensures CommitEvidence(s, a, token, owner, c, ev).Raised?
    ensures Finish(s, a, token, owner, cancel).Raised?
    ensures Heartbeat(s, a, token, owner) == Committed(s, false)
  {
  }

  /**
   * An attempt once fenced, ended or expired can commit nothing, end nothing and extend nothing, whatever tokens it
   * shows.
   */
  lemma StaleIsPowerless(tr: seq<State>, ops: seq<Op>, a: AttemptId, i: nat, j: nat,
                         token: Token, owner: Token, c: Candidate, ev: Evidence, cancel: bool)
    requires Behaviour(tr, ops) && i <= j <= |ops|
    requires forall k :: i <= k <= j ==> a in tr[k].attempts
    requires tr[i].attempts[a].status != Running || LeaseOver(tr[i].attempts[a].lease, tr[i].now)
    ensures CommitEvidence(tr[j], a, token, owner, c, ev).Raised?
    ensures Finish(tr[j], a, token, owner, cancel).Raised?
    ensures Heartbeat(tr[j], a, token, owner) == Committed(tr[j], false)
  {
    FencedForever(tr, ops, a, i, j);
    PowerlessNow(tr[j], a, token, owner, c, ev, cancel);
  }

  lemma CommitWritesNew(r: State, id: AttemptId, token: Token, owner: Token, c: Candidate, ev: Evidence)
    requires StateLinks(r)
    ensures var o := CommitEvidence(r, id, token, owner, c, ev);
            && o != Raised(ReplayChanged)
            && (o.Committed? ==>
                  && id in r.attempts && r.attempts[id].unitId in r.units
                    && r.units[r.attempts[id].unitId].status == Claimed
                  && r.attempts[id].unitId in o.state.units && o.state.units[r.attempts[id].unitId].result == Some(ev))
  {
    if CommitEvidence(r, id, token, owner, c, ev).Committed? {
      CommitEffect(r, id, token, owner, c, ev);
    } else if id in r.attempts && LiveClaim(r, id, token, owner) {
      LiveClaimIsClaimed(r, id, token, owner);
    }
  }

  /**
   * The replay branch of commit is dead: a commit that finishes always wrote new evidence, on a unit that was
   * claimed.
   */
  lemma CommitNeverReplays(tr: seq<State>, ops: seq<Op>, n: nat, id: AttemptId, token: Token, owner: Token,
                           c: Candidate, ev: Evidence)
    requires Behaviour(tr, ops) && n <= |ops|
    ensures var r := tr[n];
      var o := CommitEvidence(r, id, token, owner, c, ev);
            && o != Raised(ReplayChanged)
            && (o.Committed? ==>
                  && id in r.attempts && r.attempts[id].unitId in r.units
                    && r.units[r.attempts[id].unitId].status == Claimed
                  && r.attempts[id].unitId in o.state.units && o.state.units[r.attempts[id].unitId].result == Some(ev))
  {
    RunKeeps(tr, ops, n);
    CommitWritesNew(tr[n], id, token, owner, c, ev);
  }

  /** At most one attempt per unit is ever done, and no attempt of a done unit still runs. */
  lemma OneCommitPerUnit(tr: seq<State>, ops: seq<Op>, n: nat)
    requires Behaviour(tr, ops) && n <= |ops|
    ensures var r := tr[n];
            && (forall a, b :: a in r.attempts && b in r.attempts && SameDoneUnit(r.attempts[a], r.attempts[b]) ==>
              a == b)
            && (forall a :: a in r.attempts && r.attempts[a].status == Running ==>
              r.attempts[a].unitId in r.units && r.units[r.attempts[a].unitId].status != Done)
  {
    RunKeeps(tr, ops, n);
    var r := tr[n];
    forall a | a in r.attempts && r.attempts[a].status == Running
      ensures r.attempts[a].unitId in r.units && r.units[r.attempts[a].unitId].status != Done
    {
      assert AttemptLinked(a, r.attempts[a], r.slots, r.units);
      assert UnitLinked(r.attempts[a].unitId, r.units[r.attempts[a].unitId], r.attempts);
    }
  }
}
