/** The semaphore, the counts per task and the queue, updated in place; one method per critical section. */
module ExternalWaitStore {
  import opened ExternalWait

  class CallTable {
    /** Free permits of the bounded semaphore. */
    var free: int
    var inflight: map<TaskId, nat>
    var queue: seq<Ticket>
    /** Which permit belongs to which call, and how far it has come. */
    ghost var calls: map<Ticket, Call>

    ghost function Contents(): State
      reads this
    {
      State(free, calls, inflight, queue)
    }

    constructor ()
      ensures Contents() == INITIAL && Sound(Contents())
    {
      free, inflight, queue, calls := CAPACITY, map[], [], map[];
      new;
      RunIsSound([]);
    }

    method TryAcquire(ghost t: Ticket, task: TaskId) returns (ok: bool)
      requires Sound(Contents()) && t !in calls
      modifies this
      ensures Sound(Contents()) && (ok <==> old(free) > 0)
      ensures Contents() == if ok then old(Step(Contents(), Acquire(t, task))) else old(Contents())
    {
      if free <= 0 { return false; }
      StepConserves(Contents(), Acquire(t, task));
      StepCounts(Contents(), Acquire(t, task));
      StepQueues(Contents(), Acquire(t, task));
      free := free - 1;
      calls := calls[t := Call(task, Taken)];
      return true;
    }

    /** Under the lock: a task with two calls in flight is turned away. */
    method AdmitCall(ghost t: Ticket, task: TaskId) returns (admitted: bool)
      requires Sound(Contents()) && Enabled(Contents(), Admit(t)) && calls[t].task == task
      modifies this
      ensures Sound(Contents()) && Contents() == old(Step(Contents(), Admit(t)))
      ensures admitted <==> old(Count(Contents(), task)) < PER_TASK
    {
      StepConserves(Contents(), Admit(t));
      StepCounts(Contents(), Admit(t));
      StepQueues(Contents(), Admit(t));
      var count := if task in inflight then inflight[task] else 0;
      if count >= PER_TASK {
        calls := calls[t := calls[t].(phase := Leaving)];
        return false;
      }
      inflight := inflight[task := count + 1];
      calls := calls[t := calls[t].(phase := Counted)];
      return true;
    }

    method ReleasePermit(ghost t: Ticket)
      requires Sound(Contents()) && Enabled(Contents(), Release(t))
      modifies this
      ensures Sound(Contents()) && Contents() == old(Step(Contents(), Release(t))) && free <= CAPACITY
    {
      StepConserves(Contents(), Release(t));
      StepCounts(Contents(), Release(t));
      StepQueues(Contents(), Release(t));
      free := free + 1;
      calls := calls - {t};
    }

    /** Under the lock, when there was nothing to claim: the count is there to be lowered. */
    method Withdraw(ghost t: Ticket, task: TaskId)
      requires Sound(Contents()) && Enabled(Contents(), ClaimNone(t)) && calls[t].task == task
      modifies this
      ensures Sound(Contents()) && Contents() == old(Step(Contents(), ClaimNone(t)))
    {
      StepConserves(Contents(), ClaimNone(t));
      StepCounts(Contents(), ClaimNone(t));
      StepQueues(Contents(), ClaimNone(t));
      CountOut(Contents(), Step(Contents(), ClaimNone(t)), t);
      if inflight[task] == 1 {
        inflight := inflight - {task};
      } else {
        inflight := inflight[task := inflight[task] - 1];
      }
      calls := calls[t := calls[t].(phase := Leaving)];
    }

    /** The queue has eight places; putting without waiting never finds it full. */
    method PutNowait(t: Ticket) returns (full: bool)
      requires Sound(Contents()) && Enabled(Contents(), Enqueue(t))
      modifies this
      ensures !full && Sound(Contents()) && Contents() == old(Step(Contents(), Enqueue(t)))
    {
      QueueNeverOverflows(Contents(), t);
      if |queue| >= CAPACITY { return true; }
      StepConserves(Contents(), Enqueue(t));
      StepCounts(Contents(), Enqueue(t));
      StepQueues(Contents(), Enqueue(t));
      queue := queue + [t];
      calls := calls[t := calls[t].(phase := Waiting)];
      return false;
    }

    method Get() returns (t: Ticket)
      requires Sound(Contents()) && queue != []
      modifies this
      ensures Sound(Contents()) && t == old(queue[0]) && t in old(calls)
      ensures Contents() == old(Step(Contents(), Take(queue[0])))
    {
      HeadWaits(Contents());
      t := queue[0];
      StepConserves(Contents(), Take(t));
      StepCounts(Contents(), Take(t));
      StepQueues(Contents(), Take(t));
      queue := queue[1..];
      calls := calls[t := calls[t].(phase := Working)];
    }

    /** `_release_call`: uncount the call under the lock, then give its permit back. */
    method ReleaseCall(ghost t: Ticket, task: TaskId)
      requires Sound(Contents()) && Enabled(Contents(), Complete(t)) && calls[t].task == task
      modifies this
      ensures Sound(Contents()) && free == old(free) + 1 <= CAPACITY
      ensures calls == old(calls) - {t} && inflight == old(Uncount(inflight, task)) && queue == old(queue)
    {
      StepConserves(Contents(), Complete(t));
      StepCounts(Contents(), Complete(t));
      StepQueues(Contents(), Complete(t));
      var count: int := (if task in inflight then inflight[task] as int else 1) - 1;
      if count > 0 {
        inflight := inflight[task := count];
      } else {
        inflight := inflight - {task};
      }
      calls := calls[t := calls[t].(phase := Leaving)];
      ReleasePermit(t);
    }
  }
}
