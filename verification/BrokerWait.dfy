/** The controller's side of the queue: submit a job, poll until it is terminal
    or the deadline passes, while workers and other controllers keep calling. */
module BrokerWait {
  import opened Wrappers
  import opened JsonValue
  import opened JobModel
  import opened Text
  import opened Ordering
  import opened QueueTheorems
  import opened QueueDrain
  import opened JobQueue

  datatype WaitOutcome =
    | Answer(result: Json)
    | RecoveredTimeout(attempts: int, maxAttempts: int, error: Json)
    | JobCancelled(cancelError: Option<Json>)
    | JobFailed(failure: Option<Json>)
    | WaitTimeout(cancelled: bool)
    | Conflict
    // Both are protocol errors: a result that does not parse, a missing row.
    | ProtocolError
    | Disappeared

  predicate HasField(doc: Json, name: string) {
    doc.Obj? && name in doc.fields
  }

  predicate IsHidden(row: StoredJob) {
    HasField(row.spec.payload, "case_set")
  }

  const REDACTED: Json := Obj(map[
    "type" := Str("HiddenWorkerFailure"),
    "message" := Str("hidden worker job failed; diagnostic details redacted")])

  /** The error a terminal row reports; hidden-suite diagnostics are redacted. */
  function ReportedError(row: StoredJob): Option<Json> {
    if IsHidden(row) && row.lastError.Some? then Some(REDACTED) else row.lastError
  }

  predicate IsStageTimeout(error: Option<Json>) {
    error.Some? && HasField(error.value, "type") && error.value.fields["type"] == Str("StageTimeout")
  }

  /** Whether the stored result of a row is a well-formed stage result; the check
      also looks at the evidence files, so any predicate may stand here. */
  type Parser = StoredJob -> bool

  function TerminalResult(row: StoredJob, parses: Parser): WaitOutcome {
    match row.status
    case Succeeded => if row.result.Some? && parses(row) then Answer(row.result.value) else ProtocolError
    case Cancelled => JobCancelled(ReportedError(row))
    case Dead =>
      if IsStageTimeout(ReportedError(row))
      then RecoveredTimeout(row.attempts, row.spec.maxAttempts, ReportedError(row).value)
      else JobFailed(ReportedError(row))
    case _ => ProtocolError
  }

  /** A terminal row is a protocol error exactly when it SUCCEEDED with a result
      that does not parse; one that parses is the answer, as it is stored. */
  lemma ProtocolErrorIsExact(s: QueueState, id: string, parses: Parser)
    requires Inv(s) && id in s.jobs && s.jobs[id].IsTerminal()
    ensures TerminalResult(s.jobs[id], parses).ProtocolError?
            <==> s.jobs[id].status.Succeeded? && !parses(s.jobs[id])
    ensures TerminalResult(s.jobs[id], parses).Answer?
            <==> s.jobs[id].status.Succeeded? && parses(s.jobs[id])
    ensures TerminalResult(s.jobs[id], parses).Answer? ==>
              s.jobs[id].result == Some(TerminalResult(s.jobs[id], parses).result)
  {
    hide KeyOk;
    assert RowOk(s, id);
  }

  /** A dead-lettered stage timeout is handed back as a timeout outcome exactly
      when the job is not of a hidden suite: redaction hides the error's type. */
  lemma HiddenTimeoutsAreNotRecovered(row: StoredJob, parses: Parser)
    requires row.status.Dead?
    ensures TerminalResult(row, parses).RecoveredTimeout? <==> IsStageTimeout(row.lastError) && !IsHidden(row)
    ensures TerminalResult(row, parses).RecoveredTimeout? || TerminalResult(row, parses).JobFailed?
  {
    assert |"HiddenWorkerFailure"| != |"StageTimeout"|;
  }

  // ---------- other clients ----------

  predicate FreshTraffic(issued: set<string>, traffic: seq<Call>) {
    && (forall c | c in traffic :: c.CallEnqueue? ==> c.job.Valid())
    && (forall c | c in traffic :: c.CallClaim? ==> c.token !in issued)
    && (forall i, j | 0 <= i < j < |traffic| && traffic[i].CallClaim? && traffic[j].CallClaim? ::
          traffic[i].token != traffic[j].token)
  }

  lemma TrafficStaysFresh(before: set<string>, issued: set<string>, traffic: seq<Call>)
    requires FreshTraffic(before, traffic) && issued <= before
    ensures FreshTraffic(issued, traffic)
  {
  }

  lemma {:induction false} StepsIssue(s: QueueState, steps: seq<Step>, allowed: set<string>)
    requires Legal(s, steps) && s.issued <= allowed
    requires forall step | step in steps && step.Grant? :: step.token in allowed
    ensures DoAll(s, steps).issued <= allowed
    decreases |steps|
  {
    if steps != [] {
      assert steps[0] in steps;
      StepsIssue(Do(s, steps[0]), steps[1..], allowed);
    }
  }

  lemma CallIssues(s: QueueState, call: Call)
    requires Admissible(s, call)
    ensures Perform(s, call).issued <= s.issued + (if call.CallClaim? then {call.token} else {})
  {
    StepsOfLegal(s, call);
    StepsIssue(s, StepsOf(s, call), s.issued + (if call.CallClaim? then {call.token} else {}));
  }

  /** One call of another client, dispatched to the queue. */
  method Dispatch(queue: EvaluationJobQueue, call: Call)
    requires queue.Valid() && Admissible(queue.State(), call)
    modifies queue
    ensures queue.Valid() && queue.State() == Perform(old(queue.State()), call)
  {
    match call
    case CallEnqueue(job, now) => var _ := queue.Enqueue(job, now);
    case CallSweep(now) => var _ := queue.SweepExpired(now);
    case CallClaim(worker, token, seconds, now) => var _ := queue.Claim(worker, token, seconds, now);
    case CallHeartbeat(id, worker, token, seconds, now) => var _ := queue.Heartbeat(id, worker, token, seconds, now);
    case CallComplete(id, worker, token, result, now) => var _ := queue.Complete(id, worker, token, result, now);
    case CallFail(id, worker, token, error, retryable, delay, now) =>
      var _ := queue.Fail(id, worker, token, error, retryable, delay, now);
    case CallCancel(id, now) => var _ := queue.CancelJob(id, now);
  }

  // ---------- ids nobody uses ----------

  predicate NobodySubmits(id: string, traffic: seq<Call>) {
    forall c | c in traffic :: c.CallEnqueue? ==> c.job.spec.jobId != id
  }

  lemma {:induction false} StepsKeepAbsent(s: QueueState, steps: seq<Step>, id: string)
    requires Legal(s, steps) && id !in s.jobs
    requires forall step | step in steps && step.Insert? :: step.job.spec.jobId != id
    ensures id !in DoAll(s, steps).jobs
    decreases |steps|
  {
    if steps != [] {
      assert steps[0] in steps;
      StepsKeepAbsent(Do(s, steps[0]), steps[1..], id);
    }
  }

  lemma CallKeepsAbsent(s: QueueState, call: Call, id: string)
    requires Admissible(s, call) && id !in s.jobs
    requires call.CallEnqueue? ==> call.job.spec.jobId != id
    ensures id !in Perform(s, call).jobs
  {
    PerformIsSteps(s, call);
    StepsKeepAbsent(s, StepsOf(s, call), id);
  }

  lemma {:induction false} RunKeepsAbsent(s: QueueState, run: seq<Call>, id: string)
    requires IsRun(s, run) && id !in s.jobs && NobodySubmits(id, run)
    ensures id !in After(s, run).jobs
    decreases |run|
  {
    hide Perform, Admissible;
    if run != [] {
      assert run[0] in run;
      CallKeepsAbsent(s, run[0], id);
      RunKeepsAbsent(Perform(s, run[0]), run[1..], id);
    }
  }

  // ---------- between two transactions ----------

  /** Any number of the remaining calls of other clients happen now. */
  method Interference(queue: EvaluationJobQueue, traffic: seq<Call>) returns (rest: seq<Call>, ghost run: seq<Call>)
    requires queue.Valid() && FreshTraffic(queue.issued, traffic)
    modifies queue
    ensures queue.Valid() && FreshTraffic(queue.issued, rest)
    ensures IsRun(old(queue.State()), run) && queue.State() == After(old(queue.State()), run)
    ensures forall c | c in rest || c in run :: c in traffic
  {
    rest, run := traffic, [];
    var bursts: nat := *;
    while bursts > 0 && rest != []
      invariant queue.Valid() && FreshTraffic(queue.issued, rest)
      invariant IsRun(old(queue.State()), run) && queue.State() == After(old(queue.State()), run)
      invariant forall c | c in rest || c in run :: c in traffic
    {
      assert rest[0] in rest;
      CallIssues(queue.State(), rest[0]);
      RunGrows(old(queue.State()), run, rest[0]);
      Dispatch(queue, rest[0]);
      run := run + [rest[0]];
      rest := rest[1..];
      bursts := bursts - 1;
    }
  }

  lemma {:induction false} RunGrows(s: QueueState, run: seq<Call>, call: Call)
    requires IsRun(s, run) && Admissible(After(s, run), call)
    ensures IsRun(s, run + [call]) && After(s, run + [call]) == Perform(After(s, run), call)
    decreases |run|
  {
    hide Perform, Admissible;
    if run == [] {
      assert run + [call] == [call] && [call][1..] == [];
      assert IsRun(Perform(s, call), []) && After(Perform(s, call), []) == Perform(s, call);
    } else {
      assert (run + [call])[0] == run[0] && (run + [call])[1..] == run[1..] + [call];
      RunGrows(Perform(s, run[0]), run[1..], call);
    }
  }

  // ---------- the polling loop ----------

  predicate Settled(row: StoredJob, outcome: WaitOutcome, parses: Parser) {
    row.IsTerminal() && outcome == TerminalResult(row, parses)
  }

  /** What the waiting client says about the row it polls. */
  predicate Reports(row: StoredJob, outcome: WaitOutcome, parses: Parser) {
    if outcome.WaitTimeout? then
      !row.status.Succeeded? && (outcome.cancelled ==> row.status.Cancelled?)
    else
      && Settled(row, outcome, parses)
      && (outcome.ProtocolError? <==> row.status.Succeeded? && !parses(row))
      && (outcome.Answer? <==> row.status.Succeeded? && parses(row))
  }

  /** Submits `job` and polls.  `poll` is the sleep between polls; the clock
      advances by at least the time slept.  Other clients act between any two
      transactions of this one.  A row found by its key under another id is only
      looked at once: the client polls the id of its own request. */
  method Wait(queue: EvaluationJobQueue, job: EvaluationJob, timeout: real, poll: real, ghost polls: nat,
              cancelOnTimeout: bool, parses: Parser, traffic: seq<Call>, now: real)
    returns (outcome: WaitOutcome)
    requires queue.Valid() && job.Valid() && FreshTraffic(queue.issued, traffic)
    requires poll > 0.0 && timeout <= polls as real * poll
    modifies queue
    ensures queue.Valid()
    ensures outcome.Conflict? <==> EnqueueOutcome(old(queue.State()), job, now).Err?
    ensures !outcome.Conflict? && !HeldElsewhere(old(queue.State()), job) ==>
              && job.spec.jobId in queue.jobs && queue.jobs[job.spec.jobId].spec == job.spec
              && Reports(queue.jobs[job.spec.jobId], outcome, parses)
    ensures !outcome.Conflict? && HeldElsewhere(old(queue.State()), job) ==>
              var row := EnqueueOutcome(old(queue.State()), job, now).value;
              if row.IsTerminal() then outcome == TerminalResult(row, parses) && queue.State() == old(queue.State())
              else
                && (NobodySubmits(job.spec.jobId, traffic) ==> outcome.Disappeared?)
                && (!outcome.Disappeared? ==>
                      job.spec.jobId in queue.jobs && Reports(queue.jobs[job.spec.jobId], outcome, parses))
  {
    hide Inv, FreshTraffic, Perform, NobodySubmits;
    var answer := queue.Enqueue(job, now);
    if answer.Err? {
      return Conflict;
    }
    var stored := answer.value;
    var id := job.spec.jobId;
    EnqueuedRow(old(queue.State()), job, now);
    ghost var elsewhere := HeldElsewhere(old(queue.State()), job);
    ghost var first := true;
    var clock: real := now;
    var deadline := clock + timeout;
    var others := traffic;
    CallIssues(old(queue.State()), CallEnqueue(job, now));
    TrafficStaysFresh(old(queue.issued), queue.issued, traffic);
    ghost var left := polls;
    while true
      invariant queue.Valid() && FreshTraffic(queue.issued, others)
      invariant first ==> stored == answer.value && others == traffic
      invariant first && elsewhere ==> queue.State() == old(queue.State()) && id !in queue.jobs
      invariant first || !elsewhere || (!answer.value.IsTerminal() && !NobodySubmits(id, traffic))
      invariant !first || !elsewhere ==> id in queue.jobs && stored == queue.jobs[id]
      invariant !elsewhere ==> queue.jobs[id].spec == job.spec
      invariant stored.status.Succeeded? ==> stored.result.Some?
      invariant deadline - clock <= left as real * poll
      decreases left
    {
      if stored.IsTerminal() {
        if !first || !elsewhere {
          ProtocolErrorIsExact(queue.State(), id, parses);
        }
        return TerminalResult(stored, parses);
      }
      var afterSweep;
      afterSweep, others := SweepAndRead(queue, others, id);
      if afterSweep.None? {
        return Disappeared;
      }
      stored, first := afterSweep.value, false;
      if stored.IsTerminal() {
        ProtocolErrorIsExact(queue.State(), id, parses);
        return TerminalResult(stored, parses);
      }
      var remaining := deadline - clock;
      if remaining <= 0.0 {
        outcome := GiveUp(queue, others, id, cancelOnTimeout, parses);
        return;
      }
      clock, left := Sleep(clock, deadline, poll, left);
      others := Pause(queue, others, id);
      var refreshed := queue.Get(id);
      if refreshed.None? {
        return Disappeared;
      }
      stored := refreshed.value;
    }
  }

  /** Sleeps for min(poll, remaining); the clock may run later than that. */
  method Sleep(clock: real, deadline: real, poll: real, ghost left: nat) returns (woken: real, ghost rest: nat)
    requires poll > 0.0 && clock < deadline && deadline - clock <= left as real * poll
    ensures woken >= clock + (if poll < deadline - clock then poll else deadline - clock)
    ensures rest < left && deadline - woken <= rest as real * poll
  {
    var slept := if poll < deadline - clock then poll else deadline - clock;
    var late: real := *;
    woken := clock + slept + (if late > 0.0 then late else 0.0);
    assert 0.0 * poll == 0.0;
    assert left > 0;
    rest := left - 1;
    assert rest as real * poll == left as real * poll - poll;
    assert 0.0 <= rest as real * poll;
  }

  /** The client's own sweep and read, with other clients in between. */
  method SweepAndRead(queue: EvaluationJobQueue, traffic: seq<Call>, id: string)
    returns (row: Option<StoredJob>, rest: seq<Call>)
    requires queue.Valid() && FreshTraffic(queue.issued, traffic)
    modifies queue
    ensures queue.Valid() && FreshTraffic(queue.issued, rest)
    ensures row == if id in queue.jobs then Some(queue.jobs[id]) else None
    ensures old(id in queue.jobs) ==> id in queue.jobs && queue.jobs[id].spec == old(queue.jobs[id].spec)
    ensures old(id !in queue.jobs) && NobodySubmits(id, traffic) ==> id !in queue.jobs
    ensures row.Some? && row.value.status.Succeeded? ==> row.value.result.Some?
  {
    hide FreshTraffic, Perform, Sweep;
    rest := Pause(queue, traffic, id);
    var clock: real := *;
    CallIssues(queue.State(), CallSweep(clock));
    TrafficStaysFresh(queue.issued, Perform(queue.State(), CallSweep(clock)).issued, rest);
    SweepKeepsJob(queue.State(), clock, id);
    var _ := queue.SweepExpired(clock);
    rest := Pause(queue, rest, id);
    row := queue.Get(id);
    if id in queue.jobs {
      assert RowOk(queue.State(), id);
    }
  }

  /** Deadline passed: try to cancel, then let a concurrent completion win. */
  method GiveUp(queue: EvaluationJobQueue, traffic: seq<Call>, id: string, cancelOnTimeout: bool, parses: Parser)
    returns (outcome: WaitOutcome)
    requires queue.Valid() && FreshTraffic(queue.issued, traffic) && id in queue.jobs
    modifies queue
    ensures queue.Valid() && id in queue.jobs && queue.jobs[id].spec == old(queue.jobs[id].spec)
    ensures outcome.Answer? || outcome.ProtocolError? ==> Settled(queue.jobs[id], outcome, parses)
    ensures outcome.Answer? ==> queue.jobs[id].status.Succeeded? && parses(queue.jobs[id])
    ensures outcome.ProtocolError? ==> queue.jobs[id].status.Succeeded? && !parses(queue.jobs[id])
    ensures !outcome.Answer? && !outcome.ProtocolError? ==>
              && outcome.WaitTimeout? && !queue.jobs[id].status.Succeeded?
              && (outcome.cancelled ==> queue.jobs[id].status.Cancelled?)
  {
    hide Inv, FreshTraffic, Perform, RowOk;
    var others := Pause(queue, traffic, id);
    var cancelled := false;
    if cancelOnTimeout {
      var cancelClock: real := *;
      CallIssues(queue.State(), CallCancel(id, cancelClock));
      TrafficStaysFresh(queue.issued, Perform(queue.State(), CallCancel(id, cancelClock)).issued, others);
      CancelKeepsJob(queue.State(), id, cancelClock);
      cancelled := queue.CancelJob(id, cancelClock);
    }
    others := Pause(queue, others, id);
    var latest := queue.Get(id);
    if latest.value.status.Succeeded? {
      ProtocolErrorIsExact(queue.State(), id, parses);
      return TerminalResult(latest.value, parses);
    }
    outcome := WaitTimeout(cancelled);
  }

  /** Other clients act; our job stays in the table with its request, and a
      terminal row stays as it is. */
  method Pause(queue: EvaluationJobQueue, traffic: seq<Call>, id: string) returns (rest: seq<Call>)
    requires queue.Valid() && FreshTraffic(queue.issued, traffic)
    modifies queue
    ensures queue.Valid() && FreshTraffic(queue.issued, rest)
    ensures old(id in queue.jobs) ==>
              && id in queue.jobs && queue.jobs[id].spec == old(queue.jobs[id].spec)
              && (old(queue.jobs[id]).IsTerminal() ==> queue.jobs[id] == old(queue.jobs[id]))
    ensures id in queue.jobs && queue.jobs[id].status.Succeeded? ==> queue.jobs[id].result.Some?
    ensures NobodySubmits(id, traffic) ==> NobodySubmits(id, rest) && (old(id !in queue.jobs) ==> id !in queue.jobs)
  {
    hide Perform;
    ghost var run;
    rest, run := Interference(queue, traffic);
    RunIsHistory(old(queue.State()), run);
    if old(id in queue.jobs) {
      assert RowOk(old(queue.State()), id);
      RowKeepsRequest(old(queue.State()), History(old(queue.State()), run), id);
      if old(queue.jobs[id]).IsTerminal() {
        TerminalRowsAreFrozen(old(queue.State()), run, id);
      }
    } else if NobodySubmits(id, traffic) {
      RunKeepsAbsent(old(queue.State()), run, id);
    }
    if id in queue.jobs {
      assert RowOk(queue.State(), id);
    }
  }

  /** What an accepted submission leaves. */
  lemma EnqueuedRow(s: QueueState, job: EvaluationJob, now: real)
    requires Inv(s) && job.Valid() && EnqueueOutcome(s, job, now).Ok?
    ensures var t, id, row := Perform(s, CallEnqueue(job, now)), job.spec.jobId, EnqueueOutcome(s, job, now).value;
            && (row.status.Succeeded? ==> row.result.Some?)
            && (HeldElsewhere(s, job) ==> t == s && id !in s.jobs)
            && (!HeldElsewhere(s, job) ==> id in t.jobs && t.jobs[id] == row && row.spec == job.spec)
  {
    match Existing(s, job)
    case None => SingleStep(s, Insert(job, now));
    case Some(id) =>
      assert StepsOf(s, CallEnqueue(job, now)) == [];
      if job.spec.jobId !in s.jobs {
        assert KeyOk(s, job.spec.idempotencyKey.value);
      }
      assert RowOk(s, id);
  }

  lemma SweepKeepsJob(s: QueueState, now: real, id: string)
    requires Inv(s)
    ensures id in s.jobs ==> id in Sweep(s, now).jobs && Sweep(s, now).jobs[id].spec == s.jobs[id].spec
    ensures id !in s.jobs ==> id !in Sweep(s, now).jobs
    ensures Perform(s, CallSweep(now)) == Sweep(s, now)
  {
    SweepLegal(s, now);
  }

  lemma CancelKeepsJob(s: QueueState, id: string, now: real)
    requires Inv(s) && id in s.jobs
    ensures var t := Perform(s, CallCancel(id, now));
            && id in t.jobs && t.jobs[id].spec == s.jobs[id].spec
            && (s.jobs[id].IsWaiting() ==> t.jobs[id].status.Cancelled?)
  {
    if s.jobs[id].IsWaiting() {
      SingleStep(s, Cancel(id, now));
    }
  }

  /** All waiters agree: whatever one client was told about a settled job, any
      client that asks later is told the same. */
  lemma AnswersAgree(s: QueueState, calls: seq<Call>, id: string, told: WaitOutcome, parses: Parser)
    requires IsRun(s, calls) && id in s.jobs && Settled(s.jobs[id], told, parses)
    ensures id in After(s, calls).jobs && Settled(After(s, calls).jobs[id], told, parses)
  {
    TerminalRowsAreFrozen(s, calls, id);
  }

  /** An answer is the one result a worker committed while it held the lease. */
  lemma AnswerIsTheCommittedResult(calls: seq<Call>, id: string, result: Json, parses: Parser)
    requires IsRun(EMPTY_QUEUE, calls) && id in After(EMPTY_QUEUE, calls).jobs
    requires Settled(After(EMPTY_QUEUE, calls).jobs[id], Answer(result), parses)
    ensures Results(History(EMPTY_QUEUE, calls), id) == [result]
  {
    RunIsHistory(EMPTY_QUEUE, calls);
    OneResultPerJob(History(EMPTY_QUEUE, calls), id);
  }

  // ---------- the requests of the broker ----------

  const ID_PREFIX := "eval-"
  const KEY_PREFIX := "akg-eval-v1:"

  /** The broker derives id and key of a job from one digest of its request. */
  predicate FromBroker(spec: JobSpec) {
    && StartsWith(spec.jobId, ID_PREFIX)
    && spec.idempotencyKey == Some(KEY_PREFIX + spec.jobId[|ID_PREFIX|..])
  }

  lemma {:induction false} StepsKeepBroker(s: QueueState, steps: seq<Step>)
    requires Legal(s, steps) && forall id | id in s.jobs :: FromBroker(s.jobs[id].spec)
    requires forall step | step in steps && step.Insert? :: FromBroker(step.job.spec)
    ensures forall id | id in DoAll(s, steps).jobs :: FromBroker(DoAll(s, steps).jobs[id].spec)
    decreases |steps|
  {
    hide FromBroker;
    if steps != [] {
      assert steps[0] in steps;
      StepsKeepBroker(Do(s, steps[0]), steps[1..]);
    }
  }

  lemma CallKeepsBroker(s: QueueState, call: Call)
    requires Admissible(s, call) && forall id | id in s.jobs :: FromBroker(s.jobs[id].spec)
    requires call.CallEnqueue? ==> FromBroker(call.job.spec)
    ensures forall id | id in Perform(s, call).jobs :: FromBroker(Perform(s, call).jobs[id].spec)
  {
    hide FromBroker, Perform;
    PerformIsSteps(s, call);
    StepsKeepBroker(s, StepsOf(s, call));
  }

  lemma {:induction false} RunKeepsBroker(s: QueueState, calls: seq<Call>)
    requires IsRun(s, calls) && forall id | id in s.jobs :: FromBroker(s.jobs[id].spec)
    requires forall c | c in calls && c.CallEnqueue? :: FromBroker(c.job.spec)
    ensures forall id | id in After(s, calls).jobs :: FromBroker(After(s, calls).jobs[id].spec)
    decreases |calls|
  {
    hide FromBroker, Perform, Admissible;
    if calls != [] {
      assert calls[0] in calls;
      CallKeepsBroker(s, calls[0]);
      RunKeepsBroker(Perform(s, calls[0]), calls[1..]);
    }
  }

  lemma SameKeySameId(a: JobSpec, b: JobSpec)
    requires FromBroker(a) && FromBroker(b) && a.idempotencyKey == b.idempotencyKey
    ensures a.jobId == b.jobId
  {
    assert forall spec: JobSpec | FromBroker(spec) ::
             spec.idempotencyKey.value[|KEY_PREFIX|..] == spec.jobId[|ID_PREFIX|..];
    assert a.jobId == a.jobId[..|ID_PREFIX|] + a.jobId[|ID_PREFIX|..];
    assert b.jobId == b.jobId[..|ID_PREFIX|] + b.jobId[|ID_PREFIX|..];
  }

  /** So no row of another id ever holds the key of a broker's request: its client
      polls the row its submission was answered with. */
  lemma BrokerKeysAreOwn(calls: seq<Call>, job: EvaluationJob)
    requires IsRun(EMPTY_QUEUE, calls) && FromBroker(job.spec)
    requires forall c | c in calls && c.CallEnqueue? :: FromBroker(c.job.spec)
    ensures !HeldElsewhere(After(EMPTY_QUEUE, calls), job)
  {
    hide FromBroker;
    var s := After(EMPTY_QUEUE, calls);
    EveryRunKeepsInv(calls);
    RunKeepsBroker(EMPTY_QUEUE, calls);
    if HeldElsewhere(s, job) {
      var held := Existing(s, job).value;
      assert KeyOk(s, job.spec.idempotencyKey.value);
      assert RowOk(s, held);
      SameKeySameId(s.jobs[held].spec, job.spec);
    }
  }

  // ---------- a resubmission that conflicts ----------

  /** The broker asks for every job at the same, earliest time. */
  function FirstJob(): EvaluationJob {
    EvaluationJob(JobSpec("job", "experiment", "task", 1, "candidate", Compile, Obj(map[]), 0, 3, None), 0.0)
  }

  /** A run from the empty queue: submit, claim, report a failure to be retried
      five seconds later.  Submitting the same job again conflicts. */
  lemma ResubmissionCanConflict()
    ensures var calls := [CallEnqueue(FirstJob(), 1.0), CallClaim("worker", "token", 10.0, 1.0),
                          CallFail("job", "worker", "token", Null, true, 5.0, 2.0)];
            && IsRun(EMPTY_QUEUE, calls) && Inv(After(EMPTY_QUEUE, calls))
            && EnqueueOutcome(After(EMPTY_QUEUE, calls), FirstJob(), 3.0) == Err(IdempotencyConflict)
  {
    hide Perform, After, IsRun;
    var enqueue, claim := CallEnqueue(FirstJob(), 1.0), CallClaim("worker", "token", 10.0, 1.0);
    var fail := CallFail("job", "worker", "token", Null, true, 5.0, 2.0);
    var queued := FirstSubmitted();
    var leased := FirstClaimed(queued);
    var step := Release("job", "worker", "token", Null, true, 7.0, 2.0);
    SingleStep(leased, step);
    assert StepsOf(leased, fail) == [step];
    ThreeCalls(EMPTY_QUEUE, enqueue, claim, fail);
    PerformIsSteps(leased, fail);
    StepKeepsInv(leased, step);
    assert Do(leased, step).jobs["job"].availableAt == 7.0;
  }

  lemma PerformIsSteps(s: QueueState, call: Call)
    requires Admissible(s, call)
    ensures Legal(s, StepsOf(s, call)) && Perform(s, call) == DoAll(s, StepsOf(s, call))
  {
    StepsOfLegal(s, call);
  }

  lemma ThreeCalls(s: QueueState, a: Call, b: Call, c: Call)
    requires Admissible(s, a) && Admissible(Perform(s, a), b) && Admissible(Perform(Perform(s, a), b), c)
    ensures IsRun(s, [a, b, c]) && After(s, [a, b, c]) == Perform(Perform(Perform(s, a), b), c)
  {
    hide Perform, Admissible;
    RunGrows(s, [], a);
    RunGrows(s, [a], b);
    RunGrows(s, [a, b], c);
    assert [] + [a] == [a] && [a] + [b] == [a, b] && [a, b] + [c] == [a, b, c];
  }

  lemma FirstSubmitted() returns (s: QueueState)
    ensures Admissible(EMPTY_QUEUE, CallEnqueue(FirstJob(), 1.0))
    ensures s == Perform(EMPTY_QUEUE, CallEnqueue(FirstJob(), 1.0)) && Inv(s)
    ensures s.jobs == map["job" := StoredJob(FirstJob().spec, Queued, 0, 0.0, None, None, None, 1.0, 1.0)]
    ensures s.issued == {}
  {
    NotBlank("job");
    NotBlank("experiment");
    NotBlank("task");
    NotBlank("candidate");
    assert FirstJob().Valid();
    SingleStep(EMPTY_QUEUE, Insert(FirstJob(), 1.0));
    StepKeepsInv(EMPTY_QUEUE, Insert(FirstJob(), 1.0));
    s := Do(EMPTY_QUEUE, Insert(FirstJob(), 1.0));
  }

  lemma FirstClaimed(queued: QueueState) returns (s: QueueState)
    requires Inv(queued) && queued.issued == {}
    requires queued.jobs == map["job" := StoredJob(FirstJob().spec, Queued, 0, 0.0, None, None, None, 1.0, 1.0)]
    ensures Admissible(queued, CallClaim("worker", "token", 10.0, 1.0))
    ensures s == Perform(queued, CallClaim("worker", "token", 10.0, 1.0)) && Inv(s)
    ensures s.jobs.Keys == {"job"} && s.jobs["job"].spec == FirstJob().spec && s.jobs["job"].attempts == 1
    ensures HoldsLease(s, "job", "worker", "token", 2.0)
  {
    hide Inv, Perform;
    NotBlank("worker");
    assert ExpiredJobs(queued, 1.0) == {} && ReadyJobs(queued, 1.0) == {"job"};
    var c := Claimant("worker", "token", 10.0);
    ClaimOnSwept(queued, c, 1.0);
    ClaimStep(queued, c, 1.0);
    SweptIsStable(queued, 1.0);
    s := Perform(queued, ClaimBy(c, 1.0));
  }
}
