/**
 * The life of one distribution report: its task, its attempts, its envelope row
 * and the inbox items it has emitted. Every public call is one transaction; a
 * call that raises leaves everything as it was.
 */
module Reports {
  import opened Options

  datatype Status = Queued | Running | Done | Failed | Cancelled | Fenced

  type Token = nat
  type Code = nat
  const EXHAUSTED: Code := 0
  const CORRUPT: Code := 1
  const REVISION_UNAVAILABLE: Code := 2
  const LEASE: nat := 60

  datatype Attempt = Attempt(status: Status, owner: Option<Token>, lease: Option<int>, error: Option<Code>,
    retryRequest: Option<nat>)
  datatype Task = Task(status: Status, cancelRequested: bool, error: Option<Code>, completed: bool, maxAttempts: nat)

  /** A report document, and the frozen admission it claims to answer. */
  datatype Document = Document(content: nat, admission: nat)
  datatype Row = Row(admission: nat, report: Option<Document>, completed: bool)

  /** `intact`: the stored admission still reads back as it was written. `held`: the exact revision is still held. */
  datatype State = State(now: int, task: Task, attempts: seq<Attempt>, row: Row, inbox: map<nat, Status>,
    intact: bool, held: bool)

  predicate Terminal(s: Status) {
    s == Done || s == Failed || s == Cancelled
  }

  // ---- the envelope, and what is wrong with it ----

  datatype Envelope = Envelope(task: Task, attempts: seq<Attempt>, row: Row) | Corrupt | Unheld

  /** `_envelope_doc`: the document of the three rows, or the way in which they disagree. */
  function EnvelopeOf(s: State, validateHold: bool): Envelope {
    var last := if s.attempts == [] then None else Some(s.attempts[|s.attempts| - 1]);
    if !s.intact then Corrupt
    else if s.row.report.Some? && (s.task.status != Done || s.row.report.value.admission != s.row.admission) then
      Corrupt
    else if (s.task.status == Done) != s.row.report.Some? then Corrupt
    else if Terminal(s.task.status) != s.task.completed || Terminal(s.task.status) != s.row.completed then Corrupt
    else if validateHold && !s.held then Unheld
    else if last.None? || (s.task.status == Done && last.value.status != Done) then Corrupt
    else Envelope(s.task, s.attempts, s.row)
  }

  /** What a call returns: an envelope, nothing, or an error. */
  datatype Reply = Replied(envelope: Envelope) | Nothing | Raised

  function ReplyOf(e: Envelope): Reply {
    if e.Envelope? then Replied(e) else Raised
  }

  // ---- terminal writes ----

  /** The inbox takes one item per attempt; a second, different outcome is an error. */
  function Emit(s: State, i: nat, outcome: Status): Option<State> {
    if i in s.inbox then (if s.inbox[i] == outcome then Some(s) else None)
    else Some(s.(inbox := s.inbox[i := outcome]))
  }

  /** Attempt, task and row turn terminal together, and the inbox item is emitted. */
  function Settle(s: State, i: nat, outcome: Status, error: Option<Code>, report: Option<Document>): Option<State>
    requires i < |s.attempts|
  {
    var a := s.attempts[i].(status := outcome, error := error, lease := Some(s.now));
    var s' := s.(attempts := s.attempts[i := a],
                 task := s.task.(status := outcome, error := error, completed := true),
                 row := s.row.(report := report, completed := true));
    Emit(s', i, outcome)
  }

  /** `_terminal_failure`. */
  function Fail(s: State, i: nat, code: Code): Option<State>
    requires i < |s.attempts|
  {
    Settle(s, i, Failed, Some(code), None)
  }

  /** `_terminal_cancel`. */
  function Cancel(s: State, i: nat): Option<State>
    requires i < |s.attempts|
  {
    Settle(s, i, Cancelled, None, None)
  }

  function CodeOf(e: Envelope): Code {
    if e == Unheld then REVISION_UNAVAILABLE else CORRUPT
  }

  // ---- the calls ----

  predicate Live(s: State, i: nat, owner: Token) {
    && i < |s.attempts| && s.attempts[i].owner == Some(owner) && s.attempts[i].status == Running
    && s.attempts[i].lease.Some? && s.now < s.attempts[i].lease.value
  }

  /** How an attempt ended: with a document, or with a failure code. */
  datatype Ending = Complete(report: Document) | Failure(code: Code)

  /** The task already is what this very ending of this very owner made it. */
  predicate IsReplay(s: State, i: nat, owner: Token, ending: Ending) {
    && i < |s.attempts| && s.attempts[i].owner == Some(owner)
    && match ending
       case Complete(report) => s.task.status == Done && s.attempts[i].status == Done && s.row.report == Some(report)
       case Failure(code) =>
         && s.task.status == Failed && s.attempts[i].status == Failed
         && s.task.error == s.attempts[i].error == Some(code) && s.row.report == None
  }

  /** `_finish`. */
  function Finish(s: State, i: nat, owner: Token, ending: Ending): (State, Reply) {
    if i >= |s.attempts| then (s, Nothing)
    else if Terminal(s.task.status) then
      if IsReplay(s, i, owner, ending) then (s, ReplyOf(EnvelopeOf(s, true))) else (s, Nothing)
    else if !Live(s, i, owner) then (s, Nothing)
    else if !EnvelopeOf(s, true).Envelope? then (s, Raised)
    else
      var settled :=
        if s.task.cancelRequested then Cancel(s, i)
        else
          match ending
          case Failure(code) => Fail(s, i, code)
          case Complete(report) =>
            if report.admission != s.row.admission then None else Settle(s, i, Done, None, Some(report));
      match settled
      case None => (s, Raised)
      case Some(s') => if EnvelopeOf(s', true).Envelope? then (s', Replied(EnvelopeOf(s', true))) else (s, Raised)
  }

  /** The part that reading and claiming share: a corrupt envelope of a live task is written off as failed. */
  function WriteOff(s: State): Option<State> {
    var e := EnvelopeOf(s, true);
    if e.Envelope? || Terminal(s.task.status) then Some(s)
    else if s.attempts == [] then None
    else Fail(s, |s.attempts| - 1, CodeOf(e))
  }

  /**
   * `distribution_report`: a lost hold still shows the envelope, other corruption is reported after it is written
   * off.
   */
  function Read(s: State): (State, Reply) {
    var e := EnvelopeOf(s, true);
    if e.Envelope? then (s, Replied(e))
    else
      match WriteOff(s)
      case None => (s, Raised)
      case Some(s') =>
        if e == Unheld then
          (if EnvelopeOf(s', false).Envelope? then (s', Replied(EnvelopeOf(s', false))) else (s, Raised))
        else (s', Raised)
  }

  /** The check before and after a claim: corruption is written off and nothing is claimed. */
  function CheckClaim(s: State): State {
    match WriteOff(s) case None => s case Some(s') => s'
  }

  /** The last permitted attempt has expired: the attempt is fenced and the task fails. */
  function Exhaust(s: State): Option<State>
    requires s.attempts != []
  {
    var last := |s.attempts| - 1;
    Emit(s.(attempts := s.attempts[last := s.attempts[last].(status := Fenced)],
            task := s.task.(status := Failed, error := Some(EXHAUSTED), completed := true),
            row := s.row.(completed := true)), last, Failed)
  }

  /** An expired attempt is fenced and the next one queued. */
  function FenceExpired(s: State): State
    requires s.attempts != []
  {
    var last := |s.attempts| - 1;
    if s.attempts[last].status != Running then s
    else s.(attempts := s.attempts[last :=
      s.attempts[last].(status := Fenced)] + [Attempt(Queued, None, None, None, None)])
  }

  /** A task whose cancellation was requested is cancelled instead of started. */
  function CancelClaimed(s: State): Option<State>
    requires s.attempts != []
  {
    var last := |s.attempts| - 1;
    Emit(s.(attempts := s.attempts[last := s.attempts[last].(status := Cancelled)],
            task := s.task.(status := Cancelled, completed := true),
            row := s.row.(completed := true)), last, Cancelled)
  }

  function Start(s: State, owner: Token): State
    requires s.attempts != []
  {
    var last := |s.attempts| - 1;
    s.(attempts := s.attempts[last :=
      s.attempts[last].(status := Running, owner := Some(owner), lease := Some(s.now + LEASE))],
       task := s.task.(status := Running, error := None))
  }

  predicate Leased(s: State)
    requires s.attempts != []
  {
    var a := s.attempts[|s.attempts| - 1];
    a.status == Running && a.lease.Some? && s.now < a.lease.value
  }

  /** `_claim_durable_task_kind`, for a task without write receipts. */
  function Claim(s: State, owner: Token): (State, bool) {
    if Terminal(s.task.status) || s.attempts == [] || Leased(s) then (s, false)
    else if s.attempts[|s.attempts| - 1].status == Running && |s.attempts| >= s.task.maxAttempts then
      (match Exhaust(s) case None => (s, false) case Some(s') => (s', false))
    else
      var t := FenceExpired(s);
      if !t.task.cancelRequested then (Start(t, owner), true)
      else match CancelClaimed(t) case None => (s, false) case Some(t') => (t', false)
  }

  function Heartbeat(s: State, i: nat, owner: Token): State {
    if Live(s, i, owner) then s.(attempts := s.attempts[i := s.attempts[i].(lease := Some(s.now + LEASE))]) else s
  }

  /** `request_distribution_report_cancel`; it is undone when the envelope it returns is corrupt. */
  function RequestCancel(s: State): (State, Reply) {
    var s' := if Terminal(s.task.status) then s else s.(task := s.task.(cancelRequested := true));
    if EnvelopeOf(s', true).Envelope? then (s', Replied(EnvelopeOf(s', true))) else (s, Raised)
  }

  /** `retry_durable_task`: the one way out of a failed or cancelled task, once per request id. */
  function Retry(s: State, request: nat): (State, bool) {
    if exists i :: 0 <= i < |s.attempts| && s.attempts[i].retryRequest == Some(request) then (s, true)
    else if s.task.status != Failed && s.task.status != Cancelled then (s, false)
    else if s.attempts == [] || |s.attempts| >= s.task.maxAttempts then (s, false)
    else
      (s.(attempts := s.attempts + [Attempt(Queued, None, None, None, Some(request))],
          task := s.task.(status := Queued, cancelRequested := false, error := None, completed := false),
          row := s.row.(report := None, completed := false)), true)
  }

  datatype Call =
    | CallFinish(attempt: nat, owner: Token, ending: Ending)
    | CallRead
    | CallCheckClaim
    | CallClaim(owner: Token)
    | CallHeartbeat(attempt: nat, owner: Token)
    | CallCancel
    | CallRetry(request: nat)
    /** Time passes, and storage may lose or recover the admission or the hold. */
    | Environment(later: nat, intact: bool, held: bool)

  function Step(s: State, c: Call): State {
    match c
    case CallFinish(i, owner, ending) => Finish(s, i, owner, ending).0
    case CallRead => Read(s).0
    case CallCheckClaim => CheckClaim(s)
    case CallClaim(owner) => Claim(s, owner).0
    case CallHeartbeat(i, owner) => Heartbeat(s, i, owner)
    case CallCancel => RequestCancel(s).0
    case CallRetry(request) => Retry(s, request).0
    case Environment(later, intact, held) => s.(now := s.now + later, intact := intact, held := held)
  }

  /** Just admitted: one queued attempt, nothing decided. */
  ghost predicate Admitted(s: State) {
    && s.attempts == [Attempt(Queued, None, None, None, None)]
    && s.task.status == Queued && !s.task.completed && s.task.maxAttempts >= 1
    && s.row.report == None && !s.row.completed && s.inbox == map[]
  }

  // ---- what every call keeps ----

  /** The task and its latest attempt tell one story. */
  predicate Agrees(task: Status, last: Status) {
    match task
    case Queued => last == Queued
    case Running => last == Running
    case Done => last == Done
    case Cancelled => last == Cancelled
    case Failed => last == Failed || last == Fenced
    case Fenced => false
  }

  ghost predicate Consistent(s: State) {
    && s.attempts != [] && |s.attempts| <= s.task.maxAttempts
    && Agrees(s.task.status, s.attempts[|s.attempts| - 1].status)
    && (forall i :: 0 <= i < |s.attempts| - 1 ==> s.attempts[i].status != Running && s.attempts[i].status != Queued)
    && (s.task.completed <==> Terminal(s.task.status)) && (s.row.completed <==> Terminal(s.task.status))
    && (s.row.report.Some? <==> s.task.status == Done)
    && (s.row.report.Some? ==> s.row.report.value.admission == s.row.admission)
    && (forall i :: i in s.inbox ==> i < |s.attempts|)
    && (|s.attempts| - 1 in s.inbox <==> Terminal(s.task.status))
    && (Terminal(s.task.status) ==> s.inbox[|s.attempts| - 1] == s.task.status)
  }

  lemma AdmittedIsConsistent(s: State)
    requires Admitted(s)
    ensures Consistent(s)
  {
  }

  /** One terminal write on the latest attempt of a live task keeps everything in step. */
  lemma SettleKeeps(s: State, i: nat, outcome: Status, error: Option<Code>, report: Option<Document>)
    requires Consistent(s) && !Terminal(s.task.status) && i == |s.attempts| - 1 && Terminal(outcome)
    requires report.Some? <==> outcome == Done
    requires report.Some? ==> report.value.admission == s.row.admission
    ensures Settle(s, i, outcome, error, report).Some?
    ensures Consistent(Settle(s, i, outcome, error, report).value)
    ensures Settle(s, i, outcome, error, report).value.inbox == s.inbox[i := outcome]
  {
  }

  lemma LiveIsLatest(s: State, i: nat, owner: Token)
    requires Consistent(s) && Live(s, i, owner)
    ensures i == |s.attempts| - 1 && s.task.status == Running
  {
  }

  lemma ExhaustKeeps(s: State)
    requires Consistent(s) && !Terminal(s.task.status)
    ensures Exhaust(s).Some? && Consistent(Exhaust(s).value)
  {
  }

  /** After fencing, the latest attempt is queued whatever the task says; nothing else is out of step. */
  ghost predicate Claimable(s: State) {
    && s.attempts != [] && |s.attempts| <= s.task.maxAttempts
    && !Terminal(s.task.status) && s.task.status != Fenced && s.attempts[|s.attempts| - 1].status == Queued
    && (forall i :: 0 <= i < |s.attempts| - 1 ==> s.attempts[i].status != Running && s.attempts[i].status != Queued)
    && !s.task.completed && !s.row.completed && s.row.report.None?
    && (forall i :: i in s.inbox ==> i < |s.attempts| - 1)
  }

  lemma FenceKeeps(s: State)
    requires Consistent(s) && !Terminal(s.task.status)
    requires s.attempts[|s.attempts| - 1].status == Running ==> |s.attempts| < s.task.maxAttempts
    ensures Claimable(FenceExpired(s))
  {
  }

  lemma StartKeeps(s: State, owner: Token)
    requires Claimable(s)
    ensures Consistent(Start(s, owner))
  {
  }

  lemma CancelClaimedKeeps(s: State)
    requires Claimable(s)
    ensures CancelClaimed(s).Some? && Consistent(CancelClaimed(s).value)
  {
  }

  lemma ClaimKeeps(s: State, owner: Token)
    requires Consistent(s)
    ensures Consistent(Claim(s, owner).0)
  {
    if !Terminal(s.task.status) && !Leased(s) {
      if s.attempts[|s.attempts| - 1].status == Running && |s.attempts| >= s.task.maxAttempts {
        ExhaustKeeps(s);
      } else {
        FenceKeeps(s);
        StartKeeps(FenceExpired(s), owner);
        CancelClaimedKeeps(FenceExpired(s));
      }
    }
  }

  lemma FinishKeeps(s: State, i: nat, owner: Token, ending: Ending)
    requires Consistent(s)
    ensures Consistent(Finish(s, i, owner, ending).0)
  {
    if i < |s.attempts| && !Terminal(s.task.status) && Live(s, i, owner) {
      LiveIsLatest(s, i, owner);
      match ending
      case Failure(code) =>
        SettleKeeps(s, i, Failed, Some(code), None);
        SettleKeeps(s, i, Cancelled, None, None);
      case Complete(report) =>
        SettleKeeps(s, i, Cancelled, None, None);
        if report.admission == s.row.admission { SettleKeeps(s, i, Done, None, Some(report)); }
    }
  }

  lemma WriteOffKeeps(s: State)
    requires Consistent(s)
    ensures WriteOff(s).Some? && Consistent(WriteOff(s).value)
  {
    if !Terminal(s.task.status) { SettleKeeps(s, |s.attempts| - 1, Failed, Some(CodeOf(EnvelopeOf(s, true))), None); }
  }

  lemma RetryKeeps(s: State, request: nat)
    requires Consistent(s)
    ensures Consistent(Retry(s, request).0)
  {
  }

  lemma StepKeeps(s: State, c: Call)
    requires Consistent(s)
    ensures Consistent(Step(s, c))
  {
    match c
    case CallFinish(i, owner, ending) => FinishKeeps(s, i, owner, ending);
    case CallRead => WriteOffKeeps(s);
    case CallCheckClaim => WriteOffKeeps(s);
    case CallClaim(owner) => ClaimKeeps(s, owner);
    case CallHeartbeat(i, owner) => if Live(s, i, owner) { LiveIsLatest(s, i, owner); }
    case CallCancel =>
    case CallRetry(request) => RetryKeeps(s, request);
    case Environment(_, _, _) =>
  }

  // ---- terminal truth is written once ----

  /** What a reader sees of the outcome: the task, the attempts, the document and the inbox. */
  ghost predicate SameOutcome(s: State, s': State) {
    s'.task == s.task && s'.attempts == s.attempts && s'.row == s.row && s'.inbox == s.inbox
  }

  /** Nothing but a retry changes a terminal task: no call, from any owner, live or stale. */
  lemma TerminalIsFinal(s: State, c: Call)
    requires Consistent(s) && Terminal(s.task.status) && !c.CallRetry?
    ensures SameOutcome(s, Step(s, c))
  {
    if c.CallHeartbeat? && Live(s, c.attempt, c.owner) { LiveIsLatest(s, c.attempt, c.owner); }
  }

  /** A task that is done can not even be retried. */
  lemma DoneIsFinal(s: State, c: Call)
    requires Consistent(s) && s.task.status == Done
    ensures SameOutcome(s, Step(s, c))
  {
    if !c.CallRetry? { TerminalIsFinal(s, c); }
  }

  /** The step settles the task: it was live before and is terminal after. */
  ghost predicate Settles(s: State, s': State) {
    !Terminal(s.task.status) && Terminal(s'.task.status)
  }

  lemma FinishEmits(s: State, i: nat, owner: Token, ending: Ending)
    requires Consistent(s) && !Terminal(s.task.status)
    ensures var s' := Finish(s, i, owner, ending).0; EmitsExactly(s, s')
  {
    if i < |s.attempts| && Live(s, i, owner) { LiveIsLatest(s, i, owner); }
  }

  /**
   * Exactly one inbox item when a live task is settled, for its latest attempt and with its outcome; none otherwise.
   */
  ghost predicate EmitsExactly(s: State, s': State) {
    if Settles(s, s') then
      s'.attempts != [] && |s'.attempts| - 1 !in s.inbox && s'.inbox == s.inbox[|s'.attempts| - 1 := s'.task.status]
    else s'.inbox == s.inbox
  }

  lemma ClaimEmits(s: State, owner: Token)
    requires Consistent(s) && !Terminal(s.task.status)
    ensures EmitsExactly(s, Claim(s, owner).0)
  {
    if !Leased(s) {
      if s.attempts[|s.attempts| - 1].status == Running && |s.attempts| >= s.task.maxAttempts {
      } else {
        FenceKeeps(s);
      }
    }
  }

  lemma StepEmits(s: State, c: Call)
    requires Consistent(s)
    ensures EmitsExactly(s, Step(s, c))
  {
    if Terminal(s.task.status) {
      if !c.CallRetry? { TerminalIsFinal(s, c); }
    } else {
      match c
      case CallFinish(i, owner, ending) => FinishEmits(s, i, owner, ending);
      case CallClaim(owner) => ClaimEmits(s, owner);
      case _ =>
    }
  }

  // ---- runs ----

  function Run(s: State, calls: seq<Call>): State {
    if calls == [] then s else Step(Run(s, calls[..|calls| - 1]), calls[|calls| - 1])
  }

  /** How often a run settles the task, and how often it reopens it. */
  function Settlings(s: State, calls: seq<Call>): nat {
    if calls == [] then 0
    else
      var n := |calls| - 1;
      var before := Run(s, calls[..n]);
      Settlings(s, calls[..n]) + (if !Terminal(before.task.status)
        && Terminal(Step(before, calls[n]).task.status) then 1 else 0)
  }

  function Reopenings(s: State, calls: seq<Call>): nat {
    if calls == [] then 0
    else
      var n := |calls| - 1;
      var before := Run(s, calls[..n]);
      Reopenings(s, calls[..n]) + (if Terminal(before.task.status)
        && !Terminal(Step(before, calls[n]).task.status) then 1 else 0)
  }

  lemma OneMoreItem(inbox: map<nat, Status>, i: nat, outcome: Status)
    requires i !in inbox
    ensures |inbox[i := outcome]| == |inbox| + 1
  {
    assert inbox[i := outcome].Keys == inbox.Keys + {i};
  }

  lemma StepCounts(s: State, c: Call)
    requires Consistent(s)
    ensures |Step(s, c).inbox| == |s.inbox| + (if Settles(s, Step(s, c)) then 1 else 0)
  {
    StepEmits(s, c);
    var s' := Step(s, c);
    if Settles(s, s') { OneMoreItem(s.inbox, |s'.attempts| - 1, s'.task.status); }
  }

  /** A reopening takes one of the permitted attempts. */
  lemma StepSpendsAttempts(s: State, c: Call)
    requires Consistent(s)
    ensures Step(s, c).task.maxAttempts == s.task.maxAttempts
    ensures |Step(s, c).attempts| >= |s.attempts| + (if Terminal(s.task.status)
      && !Terminal(Step(s, c).task.status) then 1 else 0)
  {
    if Terminal(s.task.status) && !c.CallRetry? { TerminalIsFinal(s, c); }
  }

  lemma {:induction false} RunKeeps(s: State, calls: seq<Call>)
    requires Admitted(s)
    ensures Consistent(Run(s, calls))
  {
    if calls == [] {
      AdmittedIsConsistent(s);
    } else {
      RunKeeps(s, calls[..|calls| - 1]);
      StepKeeps(Run(s, calls[..|calls| - 1]), calls[|calls| - 1]);
    }
  }

  /**
   * Over any run from admission, by any owners in any order: one inbox item per settling, one more settling than
   * reopenings exactly when the task is terminal, and a document exactly when it is done.
   */
  lemma {:induction false} TruthIsWrittenOnce(s: State, calls: seq<Call>)
    requires Admitted(s)
    ensures |Run(s, calls).inbox| == Settlings(s, calls)
    ensures Settlings(s, calls) == Reopenings(s, calls) + (if Terminal(Run(s, calls).task.status) then 1 else 0)
    ensures Run(s, calls).row.report.Some? <==> Run(s, calls).task.status == Done
  {
    RunKeeps(s, calls);
    if calls != [] {
      var n := |calls| - 1;
      TruthIsWrittenOnce(s, calls[..n]);
      RunKeeps(s, calls[..n]);
      StepCounts(Run(s, calls[..n]), calls[n]);
    }
  }

  /** A task is reopened fewer times than it has permitted attempts, so it is settled at most that often. */
  lemma {:induction false} ReopeningsAreBounded(s: State, calls: seq<Call>)
    requires Admitted(s)
    ensures Reopenings(s, calls) < |Run(s, calls).attempts| <= s.task.maxAttempts == Run(s, calls).task.maxAttempts
  {
    RunKeeps(s, calls);
    if calls != [] {
      var n := |calls| - 1;
      ReopeningsAreBounded(s, calls[..n]);
      RunKeeps(s, calls[..n]);
      StepSpendsAttempts(Run(s, calls[..n]), calls[n]);
    }
  }

  // ---- owners ----

  /** The attempt has started and is no longer running, or its lease is over. */
  predicate Over(s: State, i: nat) {
    && i < |s.attempts| && s.attempts[i].status != Queued
    && (s.attempts[i].status == Running ==> s.attempts[i].lease.None? || s.attempts[i].lease.value <= s.now)
  }

  lemma ClaimKeepsOver(s: State, i: nat, owner: Token)
    requires Consistent(s) && Over(s, i)
    ensures Over(Claim(s, owner).0, i)
  {
  }

  lemma StepKeepsOver(s: State, i: nat, c: Call)
    requires Consistent(s) && Over(s, i)
    ensures Over(Step(s, c), i)
  {
    match c
    case CallFinish(k, owner, ending) => if k < |s.attempts| && Live(s, k, owner) { LiveIsLatest(s, k, owner); }
    case CallClaim(owner) => ClaimKeepsOver(s, i, owner);
    case _ =>
  }

  lemma {:induction false} OverForGood(s: State, i: nat, calls: seq<Call>)
    requires Consistent(s) && Over(s, i)
    ensures Consistent(Run(s, calls)) && Over(Run(s, calls), i)
  {
    if calls != [] {
      var n := |calls| - 1;
      OverForGood(s, i, calls[..n]);
      StepKeeps(Run(s, calls[..n]), calls[n]);
      StepKeepsOver(Run(s, calls[..n]), i, calls[n]);
    }
  }

  /**
   * In any run from admission: once an attempt is no longer running, or its lease is over, nobody can ever settle or
   * extend anything in its name, whatever happens afterwards, fencing and retries included. All it can still be told is
   * the outcome that its attempt already has, by asking for that very outcome.
   */
  lemma StaleOwnerIsPowerless(s: State, before: seq<Call>, after: seq<Call>, i: nat, owner: Token, ending: Ending)
    requires Admitted(s) && Over(Run(s, before), i)
    ensures var end := Run(Run(s, before), after);
      && Heartbeat(end, i, owner) == end && Finish(end, i, owner, ending).0 == end
      && (Finish(end, i, owner, ending).1 != Nothing ==> Terminal(end.task.status) && IsReplay(end, i, owner, ending))
  {
    RunKeeps(s, before);
    OverForGood(Run(s, before), i, after);
  }

  /** What the owner's ending turned the task into. */
  predicate TookEffect(s: State, ending: Ending) {
    match ending case Complete(_) => s.task.status == Done case Failure(_) => s.task.status == Failed
  }

  /**
   * Repeating a finish that took effect returns the same envelope and changes nothing. When the task had been asked to
   * cancel, the finish made it cancelled instead, and the repetition is told nothing.
   */
  lemma ReplayReturnsTheSame(s: State, i: nat, owner: Token, ending: Ending)
    requires Consistent(s) && !Terminal(s.task.status)
    requires Finish(s, i, owner, ending).1.Replied?
    ensures var (s', reply) := Finish(s, i, owner, ending);
      && Finish(s', i, owner, ending).0 == s'
      && (Finish(s', i, owner, ending).1 == reply <==> !s.task.cancelRequested)
      && (Finish(s', i, owner, ending).1 == reply <==> TookEffect(s', ending))
  {
    LiveIsLatest(s, i, owner);
  }

  /** And so it is however many other calls come in between, until a retry, while storage and the hold are sound. */
  lemma {:induction false} ReplayAfterOthers(s: State, i: nat, owner: Token, ending: Ending, calls: seq<Call>)
    requires Consistent(s) && Terminal(s.task.status) && IsReplay(s, i, owner, ending)
    requires forall k :: 0 <= k < |calls| ==> !calls[k].CallRetry?
    ensures Consistent(Run(s, calls)) && SameOutcome(s, Run(s, calls)) && IsReplay(Run(s, calls), i, owner, ending)
    ensures Finish(Run(s, calls), i, owner, ending).0 == Run(s, calls)
    ensures EnvelopeOf(s, true).Envelope? && EnvelopeOf(Run(s, calls), true).Envelope? ==>
      Finish(Run(s, calls), i, owner, ending).1 == Finish(s, i, owner, ending).1 == Replied(EnvelopeOf(s, true))
  {
    if calls != [] {
      var n := |calls| - 1;
      ReplayAfterOthers(s, i, owner, ending, calls[..n]);
      var before := Run(s, calls[..n]);
      StepKeeps(before, calls[n]);
      TerminalIsFinal(before, calls[n]);
    }
  }
}
