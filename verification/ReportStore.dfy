/** The rows of one report as the transactions update them; a transaction that raises is rolled back. */
module ReportStore {
  import opened Options
  import opened Reports

  class ReportRows {
    var now: int
    var task: Task
    var attempts: seq<Attempt>
    var row: Row
    var inbox: map<nat, Status>
    var intact: bool
    var held: bool

    function Rows(): State
      reads this
    {
      State(now, task, attempts, row, inbox, intact, held)
    }

    constructor (maxAttempts: nat, admission: nat, now: int)
      requires maxAttempts >= 1
      ensures Admitted(Rows()) && task.maxAttempts == maxAttempts && row.admission == admission
    {
      this.now := now;
      task := Task(Queued, false, None, false, maxAttempts);
      attempts := [Attempt(Queued, None, None, None, None)];
      row := Row(admission, None, false);
      inbox := map[];
      intact, held := true, true;
    }

    method Rollback(s: State)
      modifies this
      ensures Rows() == s
    {
      now, task, attempts, row, inbox, intact, held := s.now, s.task, s.attempts, s.row, s.inbox, s.intact, s.held;
    }

    method EmitInboxItem(i: nat, outcome: Status) returns (ok: bool)
      modifies this`inbox
      ensures ok <==> old(Emit(Rows(), i, outcome)).Some?
      ensures ok ==> Some(Rows()) == old(Emit(Rows(), i, outcome))
      ensures !ok ==> Rows() == old(Rows())
    {
      if i in inbox { return inbox[i] == outcome; }
      inbox := inbox[i := outcome];
      return true;
    }

    /** The field writes that `_terminal_failure`, `_terminal_cancel` and a completion share. */
    method Terminate(i: nat, outcome: Status, error: Option<Code>, report: Option<Document>) returns (ok: bool)
      requires i < |attempts|
      modifies this
      ensures ok <==> old(Settle(Rows(), i, outcome, error, report)).Some?
      ensures ok ==> Some(Rows()) == old(Settle(Rows(), i, outcome, error, report))
    {
      attempts := attempts[i := attempts[i].(status := outcome, error := error, lease := Some(now))];
      task := task.(status := outcome, error := error, completed := true);
      row := row.(report := report, completed := true);
      ok := EmitInboxItem(i, outcome);
    }

    method FinishReport(i: nat, owner: Token, ending: Ending) returns (reply: Reply)
      modifies this
      ensures (Rows(), reply) == old(Finish(Rows(), i, owner, ending))
    {
      var saved := Rows();
      if i >= |attempts| { return Nothing; }
      if Terminal(task.status) {
        if IsReplay(Rows(), i, owner, ending) { return ReplyOf(EnvelopeOf(Rows(), true)); }
        return Nothing;
      }
      var a := attempts[i];
      if a.owner != Some(owner) || a.status != Running || a.lease.None? || a.lease.value <= now { return Nothing; }
      if !EnvelopeOf(Rows(), true).Envelope? { return Raised; }
      var ok;
      if task.cancelRequested {
        ok := Terminate(i, Cancelled, None, None);
      } else if ending.Failure? {
        ok := Terminate(i, Failed, Some(ending.code), None);
      } else if ending.report.admission != row.admission {
        return Raised;
      } else {
        ok := Terminate(i, Done, None, Some(ending.report));
      }
      if !ok || !EnvelopeOf(Rows(), true).Envelope? {
        Rollback(saved);
        return Raised;
      }
      return Replied(EnvelopeOf(Rows(), true));
    }

    method RequestReportCancel() returns (reply: Reply)
      modifies this`task
      ensures (Rows(), reply) == old(RequestCancel(Rows()))
    {
      var saved := task;
      if !Terminal(task.status) { task := task.(cancelRequested := true); }
      if !EnvelopeOf(Rows(), true).Envelope? {
        task := saved;
        return Raised;
      }
      return Replied(EnvelopeOf(Rows(), true));
    }

    method ReadReport() returns (reply: Reply)
      modifies this
      ensures (Rows(), reply) == old(Read(Rows()))
    {
      var saved := Rows();
      var e := EnvelopeOf(Rows(), true);
      if e.Envelope? { return Replied(e); }
      if !Terminal(task.status) {
        if attempts == [] { return Raised; }
        var ok := Terminate(|attempts| - 1, Failed, Some(CodeOf(e)), None);
        if !ok {
          Rollback(saved);
          return Raised;
        }
      }
      if e.Corrupt? { return Raised; }
      var shown := EnvelopeOf(Rows(), false);
      if !shown.Envelope? {
        Rollback(saved);
        return Raised;
      }
      return Replied(shown);
    }
  }
}
