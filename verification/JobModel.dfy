/** Evaluation jobs, their event trail and the seven atomic row changes of the
    lease queue.  Every queue operation is one immediate transaction, hence a
    list of these changes applied without interleaving. */
module JobModel {
  import opened Wrappers
  import opened JsonValue
  import opened Ordering
  import opened Text

  datatype JobStatus = Queued | RetryWait | Leased | Succeeded | Dead | Cancelled

  datatype EvaluationStage =
    | SourceCheck | Compile | Correctness | Benchmark | Profile
    | FinalHiddenCorrectness | FinalBenchmark | FinalFullProfile | FullEvaluation

  /** The columns of a job that no statement ever updates. */
  datatype JobSpec = JobSpec(
    jobId: string, experimentId: string, taskId: string, roundNumber: int,
    candidateId: string, stage: EvaluationStage, payload: Json, priority: int,
    maxAttempts: int, idempotencyKey: Option<string>)

  datatype EvaluationJob = EvaluationJob(spec: JobSpec, availableAt: real) {
    /** What the constructor of the request enforces. */
    predicate Valid() {
      && IsIdentifier(spec.jobId) && IsIdentifier(spec.experimentId)
      && IsIdentifier(spec.taskId) && IsIdentifier(spec.candidateId)
      && spec.roundNumber >= 1 && spec.maxAttempts >= 1
      && (spec.idempotencyKey.Some? ==> IsIdentifier(spec.idempotencyKey.value))
    }
  }

  /** What `_require_identifier` accepts. */
  predicate IsIdentifier(text: string) {
    !Blank(text) && NUL !in text
  }

  /** The four lease columns; they are written and cleared together. */
  datatype Lease = Lease(owner: string, token: string, expiresAt: real, heartbeatAt: real)

  datatype StoredJob = StoredJob(
    spec: JobSpec, status: JobStatus, attempts: int, availableAt: real,
    lease: Option<Lease>, result: Option<Json>, lastError: Option<Json>,
    createdAt: real, updatedAt: real)
  {
    predicate IsTerminal() { status.Succeeded? || status.Dead? || status.Cancelled? }
    predicate IsWaiting() { status.Queued? || status.RetryWait? }
  }

  datatype JobEventKind =
    | Enqueued(stage: EvaluationStage, priority: int)
    | LeaseGranted(worker: string, attempt: int, expiresAt: real)
    | LeaseExpired(status: JobStatus)
    | Completed(attempt: int)
    | RetryScheduled(attempt: int, retryable: bool, error: Json)
    | DeadLettered(attempt: int, retryable: bool, error: Json)
    | CancelRecorded

  datatype JobEvent = JobEvent(
    jobId: string, experimentId: string, taskId: string, roundNumber: int, kind: JobEventKind)

  /** The job table, its unique idempotency-key index, the event trail, and the
      lease tokens handed out so far (a history variable: it is never read). */
  datatype QueueState = QueueState(
    jobs: map<string, StoredJob>, byKey: map<string, string>,
    events: seq<JobEvent>, issued: set<string>)

  const EMPTY_QUEUE := QueueState(map[], map[], [], {})

  datatype Step =
    | Insert(job: EvaluationJob, now: real)
    | Expire(jobId: string, now: real)
    | Grant(jobId: string, worker: string, token: string, expiresAt: real, now: real)
    | Extend(jobId: string, worker: string, token: string, expiresAt: real, now: real)
    | Finish(jobId: string, worker: string, token: string, result: Json, now: real)
    | Release(jobId: string, worker: string, token: string, error: Json, retryable: bool, availableAt: real, now: real)
    | Cancel(jobId: string, now: real)

  function JobOf(step: Step): string {
    if step.Insert? then step.job.spec.jobId else step.jobId
  }

  /** The WHERE clause shared by heartbeat, complete and fail. */
  predicate HoldsLease(s: QueueState, jobId: string, worker: string, token: string, now: real) {
    && jobId in s.jobs && s.jobs[jobId].status.Leased? && s.jobs[jobId].lease.Some?
    && s.jobs[jobId].lease.value.owner == worker
    && s.jobs[jobId].lease.value.token == token
    && s.jobs[jobId].lease.value.expiresAt > now
  }

  predicate LeaseRanOut(s: QueueState, jobId: string, now: real) {
    && jobId in s.jobs && s.jobs[jobId].status.Leased? && s.jobs[jobId].lease.Some?
    && s.jobs[jobId].lease.value.expiresAt <= now
  }

  predicate IsReady(s: QueueState, jobId: string, now: real) {
    && jobId in s.jobs && s.jobs[jobId].IsWaiting()
    && s.jobs[jobId].availableAt <= now
    && s.jobs[jobId].attempts < s.jobs[jobId].spec.maxAttempts
  }

  /** The stored row an enqueue request collides with: same id, else same key. */
  function Existing(s: QueueState, job: EvaluationJob): Option<string> {
    if job.spec.jobId in s.jobs then Some(job.spec.jobId)
    else if job.spec.idempotencyKey.Some? && job.spec.idempotencyKey.value in s.byKey
    then Some(s.byKey[job.spec.idempotencyKey.value])
    else None
  }

  /** Equal columns; a request may carry another id under the same key. */
  predicate SameUpToId(a: JobSpec, b: JobSpec) {
    a.(jobId := b.jobId) == b
  }

  predicate SameRequest(row: StoredJob, job: EvaluationJob) {
    SameUpToId(row.spec, job.spec) && row.availableAt == job.availableAt
  }

  predicate Enabled(s: QueueState, step: Step) {
    match step
    case Insert(job, _) => job.Valid() && Existing(s, job).None?
    case Expire(id, now) => LeaseRanOut(s, id, now)
    case Grant(id, worker, token, _, now) => IsReady(s, id, now) && token !in s.issued && !Blank(worker)
    case Extend(id, worker, token, _, now) => HoldsLease(s, id, worker, token, now)
    case Finish(id, worker, token, _, now) => HoldsLease(s, id, worker, token, now)
    case Release(id, worker, token, _, _, _, now) => HoldsLease(s, id, worker, token, now)
    case Cancel(id, _) => id in s.jobs && s.jobs[id].IsWaiting()
  }

  function LeaseExpiredError(now: real): Json {
    Obj(map["reason" := Str("lease_expired"), "detected_at" := Float(now)])
  }

  /** The row a step writes; `job` is the row it replaces (ignored by Insert). */
  function NewRow(s: QueueState, step: Step): StoredJob
    requires Enabled(s, step)
  {
    match step
    case Insert(job, now) =>
      StoredJob(job.spec, Queued, 0, job.availableAt, None, None, None, now, now)
    case Expire(id, now) =>
      var row := s.jobs[id];
      row.(status := if row.attempts >= row.spec.maxAttempts then Dead else RetryWait,
           availableAt := now, lease := None, lastError := Some(LeaseExpiredError(now)), updatedAt := now)
    case Grant(id, worker, token, expiresAt, now) =>
      var row := s.jobs[id];
      row.(status := Leased, attempts := row.attempts + 1,
           lease := Some(Lease(worker, token, expiresAt, now)), updatedAt := now)
    case Extend(id, worker, token, expiresAt, now) =>
      s.jobs[id].(lease := Some(Lease(worker, token, expiresAt, now)), updatedAt := now)
    case Finish(id, _, _, result, now) =>
      s.jobs[id].(status := Succeeded, result := Some(result), lease := None, updatedAt := now)
    case Release(id, _, _, error, retryable, availableAt, now) =>
      var row := s.jobs[id];
      row.(status := if row.attempts >= row.spec.maxAttempts || !retryable then Dead else RetryWait,
           availableAt := availableAt, lastError := Some(error), lease := None, updatedAt := now)
    case Cancel(id, now) =>
      s.jobs[id].(status := Cancelled, updatedAt := now)
  }

  /** The event appended with the row; only a heartbeat leaves no trace. */
  function EventKindOf(step: Step, row: StoredJob): Option<JobEventKind> {
    match step
    case Insert(job, _) => Some(Enqueued(job.spec.stage, job.spec.priority))
    case Expire(_, _) => Some(LeaseExpired(row.status))
    case Grant(_, worker, _, expiresAt, _) => Some(LeaseGranted(worker, row.attempts, expiresAt))
    case Extend(_, _, _, _, _) => None
    case Finish(_, _, _, _, _) => Some(Completed(row.attempts))
    case Release(_, _, _, error, retryable, _, _) =>
      Some(if row.status.RetryWait? then RetryScheduled(row.attempts, retryable, error)
           else DeadLettered(row.attempts, retryable, error))
    case Cancel(_, _) => Some(CancelRecorded)
  }

  function EventFor(row: StoredJob, kind: JobEventKind): JobEvent {
    JobEvent(row.spec.jobId, row.spec.experimentId, row.spec.taskId, row.spec.roundNumber, kind)
  }

  function Do(s: QueueState, step: Step): QueueState
    requires Enabled(s, step)
  {
    var row := NewRow(s, step);
    var kind := EventKindOf(step, row);
    QueueState(
      s.jobs[JobOf(step) := row],
      if step.Insert? && row.spec.idempotencyKey.Some?
      then s.byKey[row.spec.idempotencyKey.value := row.spec.jobId] else s.byKey,
      if kind.Some? then s.events + [EventFor(row, kind.value)] else s.events,
      if step.Grant? then s.issued + {step.token} else s.issued)
  }

  // ---------- lists of steps ----------

  predicate Legal(s: QueueState, steps: seq<Step>)
    decreases |steps|
  {
    steps == [] || (Enabled(s, steps[0]) && Legal(Do(s, steps[0]), steps[1..]))
  }

  function DoAll(s: QueueState, steps: seq<Step>): QueueState
    requires Legal(s, steps)
    decreases |steps|
  {
    if steps == [] then s else DoAll(Do(s, steps[0]), steps[1..])
  }

  lemma {:induction false} DoAllConcat(s: QueueState, front: seq<Step>, back: seq<Step>)
    requires Legal(s, front) && Legal(DoAll(s, front), back)
    ensures Legal(s, front + back)
    ensures DoAll(s, front + back) == DoAll(DoAll(s, front), back)
    decreases |front|
  {
    hide Do, Enabled;
    if front == [] {
      assert front + back == back;
    } else {
      assert (front + back)[1..] == front[1..] + back;
      DoAllConcat(Do(s, front[0]), front[1..], back);
    }
  }

  lemma {:induction false} DoAllSplit(s: QueueState, front: seq<Step>, back: seq<Step>)
    requires Legal(s, front + back)
    ensures Legal(s, front) && Legal(DoAll(s, front), back)
    ensures DoAll(s, front + back) == DoAll(DoAll(s, front), back)
    decreases |front|
  {
    hide Do, Enabled;
    if front == [] {
      assert front + back == back;
    } else {
      assert (front + back)[1..] == front[1..] + back;
      DoAllSplit(Do(s, front[0]), front[1..], back);
    }
  }

  lemma DoAllLast(s: QueueState, front: seq<Step>, last: Step)
    requires Legal(s, front + [last])
    ensures Legal(s, front) && Enabled(DoAll(s, front), last)
    ensures DoAll(s, front + [last]) == Do(DoAll(s, front), last)
  {
    DoAllSplit(s, front, [last]);
    assert [last][1..] == [];
    assert DoAll(Do(DoAll(s, front), last), []) == Do(DoAll(s, front), last);
  }

  // ---------- orders of the two queries ----------

  function Expiry(row: StoredJob): real {
    if row.lease.Some? then row.lease.value.expiresAt else 0.0
  }

  /** ORDER BY lease_expires_at, job_id. */
  predicate ExpiresBefore(jobs: map<string, StoredJob>, a: string, b: string) {
    && a in jobs && b in jobs
    && (Expiry(jobs[a]) < Expiry(jobs[b])
        || (Expiry(jobs[a]) == Expiry(jobs[b]) && StringLess(a, b)))
  }

  /** ORDER BY priority DESC, available_at, created_at, job_id. */
  predicate ClaimedBefore(jobs: map<string, StoredJob>, a: string, b: string) {
    && a in jobs && b in jobs
    && var x, y := jobs[a], jobs[b];
       || x.spec.priority > y.spec.priority
       || (x.spec.priority == y.spec.priority
           && (x.availableAt < y.availableAt
               || (x.availableAt == y.availableAt
                   && (x.createdAt < y.createdAt
                       || (x.createdAt == y.createdAt && StringLess(a, b))))))
  }

  function ExpiryOrder(jobs: map<string, StoredJob>): Order {
    (a, b) => ExpiresBefore(jobs, a, b)
  }

  function ClaimOrder(jobs: map<string, StoredJob>): Order {
    (a, b) => ClaimedBefore(jobs, a, b)
  }

  lemma ExpiryOrderTotal(jobs: map<string, StoredJob>, ids: set<string>)
    requires ids <= jobs.Keys
    ensures TotalOn(ExpiryOrder(jobs), ids)
  {
    StringOrder(ids);
  }

  lemma ClaimOrderTotal(jobs: map<string, StoredJob>, ids: set<string>)
    requires ids <= jobs.Keys
    ensures TotalOn(ClaimOrder(jobs), ids)
  {
    StringOrder(ids);
  }

  lemma StringOrder(ids: set<string>)
    ensures forall a | a in ids :: !StringLess(a, a)
    ensures forall a, b | a in ids && b in ids :: a != b ==> StringLess(a, b) || StringLess(b, a)
    ensures forall a, b, c | a in ids && b in ids && c in ids && StringLess(a, b) && StringLess(b, c) :: StringLess(a, c)
  {
    forall a | a in ids ensures !StringLess(a, a) { StringLessIrreflexive(a); }
    forall a, b | a in ids && b in ids && a != b ensures StringLess(a, b) || StringLess(b, a) { StringLessTotal(a, b); }
    forall a, b, c | a in ids && b in ids && c in ids && StringLess(a, b) && StringLess(b, c) ensures StringLess(a, c) {
      StringLessTransitive(a, b, c);
    }
  }

  // ---------- the queue operations ----------

  datatype QueueError = InvalidArgument | IdempotencyConflict | LeaseLost

  datatype Call =
    | CallEnqueue(job: EvaluationJob, now: real)
    | CallSweep(now: real)
    | CallClaim(worker: string, token: string, leaseSeconds: real, now: real)
    | CallHeartbeat(jobId: string, worker: string, token: string, leaseSeconds: real, now: real)
    | CallComplete(jobId: string, worker: string, token: string, result: Json, now: real)
    | CallFail(jobId: string, worker: string, token: string, error: Json, retryable: bool, delay: real, now: real)
    | CallCancel(jobId: string, now: real)

  /** Requests satisfy their constructor, and `secrets.token_urlsafe` never
      repeats a token.  Clock values are unconstrained. */
  predicate Admissible(s: QueueState, call: Call) {
    && (call.CallEnqueue? ==> call.job.Valid())
    && (call.CallClaim? ==> call.token !in s.issued)
  }

  function ExpiredJobs(s: QueueState, now: real): set<string> {
    set id | id in s.jobs && LeaseRanOut(s, id, now)
  }

  function ReadyJobs(s: QueueState, now: real): set<string> {
    set id | id in s.jobs && IsReady(s, id, now)
  }

  function Expirations(ids: seq<string>, now: real): seq<Step> {
    seq(|ids|, i requires 0 <= i < |ids| => Expire(ids[i], now))
  }

  /** The expired rows, in the order the sweep visits them. */
  ghost function ExpiredList(s: QueueState, now: real): seq<string> {
    ExpiryOrderTotal(s.jobs, ExpiredJobs(s, now));
    Listing(ExpiryOrder(s.jobs), ExpiredJobs(s, now))
  }

  ghost function SweepSteps(s: QueueState, now: real): seq<Step> {
    Expirations(ExpiredList(s, now), now)
  }

  lemma {:induction false} ExpirationsLegal(s: QueueState, ids: seq<string>, now: real)
    requires forall id | id in ids :: LeaseRanOut(s, id, now)
    requires forall i, j | 0 <= i < j < |ids| :: ids[i] != ids[j]
    ensures Legal(s, Expirations(ids, now))
    ensures var t := DoAll(s, Expirations(ids, now));
            && t.jobs == (map id | id in s.jobs :: if id in ids then NewRow(s, Expire(id, now)) else s.jobs[id])
            && t.byKey == s.byKey && t.issued == s.issued
    decreases |ids|
  {
    if ids != [] {
      assert ids[0] in ids;
      var t := Do(s, Expire(ids[0], now));
      forall id | id in ids[1..] ensures id != ids[0] && LeaseRanOut(t, id, now) {
        var k :| 0 <= k < |ids[1..]| && ids[1..][k] == id;
        assert ids[k + 1] == id && id in ids;
      }
      assert Expirations(ids, now)[1..] == Expirations(ids[1..], now);
      ExpirationsLegal(t, ids[1..], now);
    }
  }

  /** What a sweep does to the table: every lease that ran out is released, and
      no other row is touched. */
  lemma SweepLegal(s: QueueState, now: real)
    ensures Legal(s, SweepSteps(s, now))
    ensures var t := DoAll(s, SweepSteps(s, now));
            && t.jobs == (map id | id in s.jobs ::
                            if id in ExpiredJobs(s, now) then NewRow(s, Expire(id, now)) else s.jobs[id])
            && t.byKey == s.byKey && t.issued == s.issued
  {
    ExpiryOrderTotal(s.jobs, ExpiredJobs(s, now));
    ListingIsSorted(ExpiryOrder(s.jobs), ExpiredJobs(s, now));
    ExpirationsLegal(s, ExpiredList(s, now), now);
  }

  ghost function Sweep(s: QueueState, now: real): QueueState {
    SweepLegal(s, now);
    DoAll(s, SweepSteps(s, now))
  }

  /** The job `claim` picks: the first ready row after the sweep. */
  ghost function Chosen(s: QueueState, now: real): Option<string> {
    var swept := Sweep(s, now);
    var ready := ReadyJobs(swept, now);
    ClaimOrderTotal(swept.jobs, ready);
    if ready == {} then None else Some(First(ClaimOrder(swept.jobs), ready))
  }

  /** The steps one call performs; a refused call performs none. */
  ghost function StepsOf(s: QueueState, call: Call): seq<Step> {
    match call
    case CallEnqueue(job, now) => if Existing(s, job).None? then [Insert(job, now)] else []
    case CallSweep(now) => SweepSteps(s, now)
    case CallClaim(worker, token, seconds, now) =>
      if Blank(worker) || seconds <= 0.0 then []
      else
        var chosen := Chosen(s, now);
        SweepSteps(s, now)
        + (if chosen.None? then [] else [Grant(chosen.value, worker, token, now + seconds, now)])
    case CallHeartbeat(id, worker, token, seconds, now) =>
      if seconds > 0.0 && HoldsLease(s, id, worker, token, now)
      then [Extend(id, worker, token, now + seconds, now)] else []
    case CallComplete(id, worker, token, result, now) =>
      if HoldsLease(s, id, worker, token, now) then [Finish(id, worker, token, result, now)] else []
    case CallFail(id, worker, token, error, retryable, delay, now) =>
      if delay >= 0.0 && HoldsLease(s, id, worker, token, now)
      then [Release(id, worker, token, error, retryable, now + delay, now)] else []
    case CallCancel(id, now) =>
      if id in s.jobs && s.jobs[id].IsWaiting() then [Cancel(id, now)] else []
  }

  lemma StepsOfLegal(s: QueueState, call: Call)
    requires Admissible(s, call)
    ensures Legal(s, StepsOf(s, call))
  {
    match call
    case CallSweep(now) =>
      SweepLegal(s, now);
    case CallClaim(worker, token, seconds, now) =>
      SweepLegal(s, now);
      var sweep := SweepSteps(s, now);
      if !Blank(worker) && seconds > 0.0 {
        var chosen := Chosen(s, now);
        if chosen.Some? {
          var grant := Grant(chosen.value, worker, token, now + seconds, now);
          assert Enabled(Sweep(s, now), grant);
          assert Legal(Sweep(s, now), [grant]);
          DoAllConcat(s, sweep, [grant]);
        } else {
          assert sweep + [] == sweep;
        }
      }
    case _ =>
  }

  ghost function Perform(s: QueueState, call: Call): QueueState
    requires Admissible(s, call)
  {
    StepsOfLegal(s, call);
    DoAll(s, StepsOf(s, call))
  }

  // ---------- runs: any interleaving of calls by any number of clients ----------

  ghost predicate IsRun(s: QueueState, calls: seq<Call>)
    decreases |calls|
  {
    calls == [] || (Admissible(s, calls[0]) && IsRun(Perform(s, calls[0]), calls[1..]))
  }

  ghost function After(s: QueueState, calls: seq<Call>): QueueState
    requires IsRun(s, calls)
    decreases |calls|
  {
    if calls == [] then s else After(Perform(s, calls[0]), calls[1..])
  }

  /** All row changes of a run, in order. */
  ghost function History(s: QueueState, calls: seq<Call>): (steps: seq<Step>)
    requires IsRun(s, calls)
    decreases |calls|
  {
    if calls == [] then [] else StepsOf(s, calls[0]) + History(Perform(s, calls[0]), calls[1..])
  }

  /** Whatever the interleaving, a run is a list of single-row changes, each
      legal in the state it meets. */
  lemma {:induction false} RunIsHistory(s: QueueState, calls: seq<Call>)
    requires IsRun(s, calls)
    ensures Legal(s, History(s, calls))
    ensures DoAll(s, History(s, calls)) == After(s, calls)
    decreases |calls|
  {
    if calls != [] {
      RunIsHistory(Perform(s, calls[0]), calls[1..]);
      StepsOfLegal(s, calls[0]);
      DoAllConcat(s, StepsOf(s, calls[0]), History(Perform(s, calls[0]), calls[1..]));
    }
  }
}
