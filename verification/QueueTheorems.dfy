/** What every interleaving of queue calls keeps: the table invariant, fencing
    by lease token, single results, the event trail as a faithful record, and
    the attempt budget. */
module QueueTheorems {
  import opened Wrappers
  import opened JsonValue
  import opened JobModel

  // ---------- the table invariant ----------

  predicate RowOk(s: QueueState, id: string)
    requires id in s.jobs
  {
    var row := s.jobs[id];
    && row.spec.jobId == id
    && 0 <= row.attempts <= row.spec.maxAttempts
    && (row.lease.Some? <==> row.status.Leased?)
    && (row.result.Some? <==> row.status.Succeeded?)
    && (row.status.Queued? ==> row.attempts == 0)
    && (row.IsWaiting() ==> row.attempts < row.spec.maxAttempts)
    && (row.status.Leased? ==> row.attempts >= 1 && row.lease.value.token in s.issued)
    && (row.spec.idempotencyKey.Some? ==>
          row.spec.idempotencyKey.value in s.byKey && s.byKey[row.spec.idempotencyKey.value] == id)
  }

  predicate KeyOk(s: QueueState, key: string)
    requires key in s.byKey
  {
    s.byKey[key] in s.jobs && s.jobs[s.byKey[key]].spec.idempotencyKey == Some(key)
  }

  predicate Inv(s: QueueState) {
    && (forall id | id in s.jobs :: RowOk(s, id))
    && (forall key | key in s.byKey :: KeyOk(s, key))
    && (forall a, b | a in s.jobs && b in s.jobs && s.jobs[a].lease.Some? && s.jobs[b].lease.Some? ::
          s.jobs[a].lease.value.token == s.jobs[b].lease.value.token ==> a == b)
  }

  lemma StepKeepsRow(s: QueueState, step: Step, id: string)
    requires Inv(s) && Enabled(s, step) && id in Do(s, step).jobs
    ensures RowOk(Do(s, step), id)
  {
    hide KeyOk;
    if id in s.jobs { assert RowOk(s, id); }
  }

  lemma StepKeepsKey(s: QueueState, step: Step, key: string)
    requires Inv(s) && Enabled(s, step) && key in Do(s, step).byKey
    ensures KeyOk(Do(s, step), key)
  {
    if key in s.byKey { assert KeyOk(s, key); }
    if JobOf(step) in s.jobs { assert RowOk(s, JobOf(step)); }
  }

  lemma StepKeepsTokensApart(s: QueueState, step: Step, a: string, b: string)
    requires Inv(s) && Enabled(s, step)
    requires a in Do(s, step).jobs && b in Do(s, step).jobs && a != b
    requires Do(s, step).jobs[a].lease.Some? && Do(s, step).jobs[b].lease.Some?
    ensures Do(s, step).jobs[a].lease.value.token != Do(s, step).jobs[b].lease.value.token
  {
    hide KeyOk;
    if a in s.jobs { assert RowOk(s, a); }
    if b in s.jobs { assert RowOk(s, b); }
  }

  lemma StepKeepsInv(s: QueueState, step: Step)
    requires Inv(s) && Enabled(s, step)
    ensures Inv(Do(s, step))
  {
    hide Do, Enabled, RowOk, KeyOk;
    var t := Do(s, step);
    forall id | id in t.jobs ensures RowOk(t, id) { StepKeepsRow(s, step, id); }
    forall key | key in t.byKey ensures KeyOk(t, key) { StepKeepsKey(s, step, key); }
    forall a, b | a in t.jobs && b in t.jobs && t.jobs[a].lease.Some? && t.jobs[b].lease.Some? && a != b
      ensures t.jobs[a].lease.value.token != t.jobs[b].lease.value.token
    {
      StepKeepsTokensApart(s, step, a, b);
    }
  }

  lemma {:induction false} StepsKeepInv(s: QueueState, steps: seq<Step>)
    requires Inv(s) && Legal(s, steps)
    ensures Inv(DoAll(s, steps))
    decreases |steps|
  {
    hide Inv, Do, Enabled;
    if steps != [] {
      StepKeepsInv(s, steps[0]);
      StepsKeepInv(Do(s, steps[0]), steps[1..]);
    }
  }

  /** The CHECK constraint on lease columns, unique job ids and idempotency
      keys, the attempt bounds and "a result exists iff the job succeeded" hold
      after any interleaving of calls with any clock values. */
  lemma EveryRunKeepsInv(calls: seq<Call>)
    requires IsRun(EMPTY_QUEUE, calls)
    ensures Inv(After(EMPTY_QUEUE, calls))
  {
    RunIsHistory(EMPTY_QUEUE, calls);
    StepsKeepInv(EMPTY_QUEUE, History(EMPTY_QUEUE, calls));
  }

  // ---------- fencing ----------

  /** The token of the claim that holds the job at the end of `steps`: its last
      grant, unless that lease was expired, finished or released since. */
  function Holder(steps: seq<Step>, id: string): Option<string>
    decreases |steps|
  {
    if steps == [] then None
    else
      var last := steps[|steps| - 1];
      if JobOf(last) != id || last.Extend? then Holder(steps[..|steps| - 1], id)
      else if last.Grant? then Some(last.token)
      else None
  }

  /** The token of the most recent claim of the job, released or not. */
  function LatestClaim(steps: seq<Step>, id: string): Option<string>
    decreases |steps|
  {
    if steps == [] then None
    else
      var last := steps[|steps| - 1];
      if last.Grant? && last.jobId == id then Some(last.token)
      else LatestClaim(steps[..|steps| - 1], id)
  }

  lemma {:induction false} HolderIsLatestClaim(steps: seq<Step>, id: string)
    requires Holder(steps, id).Some?
    ensures LatestClaim(steps, id) == Holder(steps, id)
    decreases |steps|
  {
    var last := steps[|steps| - 1];
    if !(last.Grant? && last.jobId == id) {
      HolderIsLatestClaim(steps[..|steps| - 1], id);
    }
  }

  /** The lease token stored with a job. */
  function StoredToken(s: QueueState, id: string): Option<string> {
    if id in s.jobs && s.jobs[id].lease.Some? then Some(s.jobs[id].lease.value.token) else None
  }

  lemma StepMovesToken(s: QueueState, step: Step, id: string)
    requires Inv(s) && Enabled(s, step)
    ensures StoredToken(Do(s, step), id)
         == if JobOf(step) != id || step.Extend? then StoredToken(s, id)
            else if step.Grant? then Some(step.token) else None
  {
    hide KeyOk;
    if JobOf(step) == id && id in s.jobs { assert RowOk(s, id); }
  }

  lemma {:induction false} LeaseMatchesHolder(steps: seq<Step>, id: string)
    requires Legal(EMPTY_QUEUE, steps)
    ensures Holder(steps, id) == StoredToken(DoAll(EMPTY_QUEUE, steps), id)
    decreases |steps|
  {
    hide Inv, Do, Enabled, StoredToken;
    if steps == [] {
      NothingStored(id);
    } else {
      var front, last := steps[..|steps| - 1], steps[|steps| - 1];
      assert steps == front + [last];
      DoAllLast(EMPTY_QUEUE, front, last);
      LeaseMatchesHolder(front, id);
      EmptyQueueIsOk();
      StepsKeepInv(EMPTY_QUEUE, front);
      StepMovesToken(DoAll(EMPTY_QUEUE, front), last, id);
    }
  }

  lemma NothingStored(id: string)
    ensures StoredToken(EMPTY_QUEUE, id).None? && StoredResult(EMPTY_QUEUE, id) == [] && Replay([], id) == TrailOf(EMPTY_QUEUE, id)
  {
  }

  lemma EmptyQueueIsOk()
    ensures Inv(EMPTY_QUEUE)
  {
  }

  predicate UsesToken(call: Call) {
    call.CallHeartbeat? || call.CallComplete? || call.CallFail?
  }

  /** Without the stored token the guarded UPDATE matches no row. */
  lemma OnlyStoredTokenWrites(s: QueueState, call: Call)
    requires UsesToken(call)
    ensures StepsOf(s, call) == [] || StoredToken(s, call.jobId) == Some(call.token)
  {
    hide Chosen, SweepSteps;
  }

  /** Fencing: after any run, a heartbeat, completion or failure report that
      changes anything carries the token of the latest claim of that job, and
      that claim has not been expired, finished or released since. */
  lemma Fencing(calls: seq<Call>, call: Call)
    requires IsRun(EMPTY_QUEUE, calls) && UsesToken(call)
    ensures Perform(After(EMPTY_QUEUE, calls), call) == After(EMPTY_QUEUE, calls)
         || (&& Holder(History(EMPTY_QUEUE, calls), call.jobId) == Some(call.token)
             && LatestClaim(History(EMPTY_QUEUE, calls), call.jobId) == Some(call.token))
  {
    hide StepsOf, Do, Enabled, StoredToken;
    var s := After(EMPTY_QUEUE, calls);
    RunIsHistory(EMPTY_QUEUE, calls);
    OnlyStoredTokenWrites(s, call);
    LeaseMatchesHolder(History(EMPTY_QUEUE, calls), call.jobId);
    if Holder(History(EMPTY_QUEUE, calls), call.jobId).Some? {
      HolderIsLatestClaim(History(EMPTY_QUEUE, calls), call.jobId);
    }
  }

  lemma StepIssues(s: QueueState, step: Step)
    requires Enabled(s, step)
    ensures Do(s, step).issued == if step.Grant? then s.issued + {step.token} else s.issued
    ensures step.Grant? ==> step.token !in s.issued
  {
  }

  lemma {:induction false} ClaimedTokensAreIssued(steps: seq<Step>, i: nat)
    requires Legal(EMPTY_QUEUE, steps) && i < |steps| && steps[i].Grant?
    ensures steps[i].token in DoAll(EMPTY_QUEUE, steps).issued
    decreases |steps|
  {
    hide Do, Enabled;
    var front, last := steps[..|steps| - 1], steps[|steps| - 1];
    assert steps == front + [last];
    DoAllLast(EMPTY_QUEUE, front, last);
    StepIssues(DoAll(EMPTY_QUEUE, front), last);
    if i < |front| {
      ClaimedTokensAreIssued(front, i);
    }
  }

  lemma EarlierToken(front: seq<Step>, back: seq<Step>, i: nat)
    requires Legal(EMPTY_QUEUE, front + back) && i < |front| && front[i].Grant?
    requires back != [] && back[0].Grant?
    ensures front[i].token != back[0].token
  {
    hide Do, Enabled;
    DoAllSplit(EMPTY_QUEUE, front, back);
    ClaimedTokensAreIssued(front, i);
    StepIssues(DoAll(EMPTY_QUEUE, front), back[0]);
  }

  /** No two claims ever share a token, so the holder is unambiguous. */
  lemma ClaimTokensDistinct(steps: seq<Step>, i: nat, j: nat)
    requires Legal(EMPTY_QUEUE, steps)
    ensures i < j < |steps| && steps[i].Grant? && steps[j].Grant? ==> steps[i].token != steps[j].token
  {
    hide Legal;
    if i < j < |steps| && steps[i].Grant? && steps[j].Grant? {
      assert steps == steps[..j] + steps[j..];
      EarlierToken(steps[..j], steps[j..], i);
    }
  }

  /** A worker whose lease was lost, by expiry or to another claim, can never
      change the job again, whatever it reports and whatever its clock says. */
  lemma StaleWorkerIsRefused(calls: seq<Call>, call: Call)
    requires IsRun(EMPTY_QUEUE, calls) && UsesToken(call)
    requires LatestClaim(History(EMPTY_QUEUE, calls), call.jobId) != Some(call.token)
          || Holder(History(EMPTY_QUEUE, calls), call.jobId).None?
    ensures Perform(After(EMPTY_QUEUE, calls), call) == After(EMPTY_QUEUE, calls)
  {
    Fencing(calls, call);
  }

  // ---------- one result, frozen outcomes ----------

  lemma {:induction false} TerminalRowsSurvive(s: QueueState, steps: seq<Step>, id: string)
    requires Legal(s, steps) && id in s.jobs && s.jobs[id].IsTerminal()
    ensures id in DoAll(s, steps).jobs && DoAll(s, steps).jobs[id] == s.jobs[id]
    decreases |steps|
  {
    if steps != [] {
      TerminalRowsSurvive(Do(s, steps[0]), steps[1..], id);
    }
  }

  /** SUCCEEDED, DEAD and CANCELLED rows never change again. */
  lemma TerminalRowsAreFrozen(s: QueueState, calls: seq<Call>, id: string)
    requires IsRun(s, calls) && id in s.jobs && s.jobs[id].IsTerminal()
    ensures id in After(s, calls).jobs && After(s, calls).jobs[id] == s.jobs[id]
  {
    RunIsHistory(s, calls);
    TerminalRowsSurvive(s, History(s, calls), id);
  }

  function Results(steps: seq<Step>, id: string): seq<Json>
    decreases |steps|
  {
    if steps == [] then []
    else
      var last := steps[|steps| - 1];
      Results(steps[..|steps| - 1], id)
      + (if last.Finish? && last.jobId == id then [last.result] else [])
  }

  function StoredResult(s: QueueState, id: string): seq<Json> {
    if id in s.jobs && s.jobs[id].status.Succeeded? && s.jobs[id].result.Some?
    then [s.jobs[id].result.value] else []
  }

  lemma StepStoresResult(s: QueueState, step: Step, id: string)
    requires Inv(s) && Enabled(s, step)
    ensures StoredResult(Do(s, step), id)
         == StoredResult(s, id) + (if step.Finish? && step.jobId == id then [step.result] else [])
  {
    if id in s.jobs { assert RowOk(s, id); }
  }

  /** At most one result is ever committed for a job, it is the stored one, and
      it exists exactly when the job is SUCCEEDED. */
  lemma {:induction false} OneResultPerJob(steps: seq<Step>, id: string)
    requires Legal(EMPTY_QUEUE, steps)
    ensures Results(steps, id) == StoredResult(DoAll(EMPTY_QUEUE, steps), id)
    ensures |Results(steps, id)| <= 1
    decreases |steps|
  {
    hide Do, Enabled, RowOk, KeyOk;
    if steps != [] {
      var front, last := steps[..|steps| - 1], steps[|steps| - 1];
      assert steps == front + [last];
      DoAllLast(EMPTY_QUEUE, front, last);
      OneResultPerJob(front, id);
      StepsKeepInv(EMPTY_QUEUE, front);
      StepStoresResult(DoAll(EMPTY_QUEUE, front), last, id);
    }
  }

  // ---------- the event trail determines the table ----------

  /** What a job's events, read alone, say about it. */
  datatype Trail = NoJob | At(status: JobStatus, attempts: int) | Broken

  function Advance(trail: Trail, kind: JobEventKind): Trail {
    match trail
    case Broken => Broken
    case NoJob => if kind.Enqueued? then At(Queued, 0) else Broken
    case At(status, attempts) =>
      match kind
      case Enqueued(_, _) => Broken
      case LeaseGranted(_, attempt, _) =>
        if (status.Queued? || status.RetryWait?) && attempt == attempts + 1 then At(Leased, attempt) else Broken
      case LeaseExpired(next) => if status.Leased? then At(next, attempts) else Broken
      case Completed(attempt) => if status.Leased? && attempt == attempts then At(Succeeded, attempt) else Broken
      case RetryScheduled(attempt, _, _) =>
        if status.Leased? && attempt == attempts then At(RetryWait, attempt) else Broken
      case DeadLettered(attempt, _, _) => if status.Leased? && attempt == attempts then At(Dead, attempt) else Broken
      case CancelRecorded => if status.Queued? || status.RetryWait? then At(Cancelled, attempts) else Broken
  }

  function Replay(events: seq<JobEvent>, id: string): Trail
    decreases |events|
  {
    if events == [] then NoJob
    else
      var last := events[|events| - 1];
      var before := Replay(events[..|events| - 1], id);
      if last.jobId == id then Advance(before, last.kind) else before
  }

  function TrailOf(s: QueueState, id: string): Trail {
    if id in s.jobs then At(s.jobs[id].status, s.jobs[id].attempts) else NoJob
  }

  /** The events after a step: at most one more, about the step's own job. */
  lemma StepEvents(s: QueueState, step: Step)
    requires Enabled(s, step)
    ensures var t := Do(s, step);
            var kind := EventKindOf(step, NewRow(s, step));
            t.events == if kind.Some? then s.events + [EventFor(NewRow(s, step), kind.value)] else s.events
  {
  }

  lemma ReplayNext(events: seq<JobEvent>, e: JobEvent, id: string)
    ensures Replay(events + [e], id) == if e.jobId == id then Advance(Replay(events, id), e.kind) else Replay(events, id)
    ensures EventCount(events + [e], id) == EventCount(events, id) + if e.jobId == id then 1 else 0
  {
    assert (events + [e])[..|events|] == events;
  }

  /** The event of a step moves the job's trail as the step moves its row. */
  lemma StepAdvancesTrail(s: QueueState, step: Step)
    requires Inv(s) && Enabled(s, step)
    ensures var row := NewRow(s, step);
            var kind := EventKindOf(step, row);
            && row.spec.jobId == JobOf(step)
            && TrailOf(Do(s, step), JobOf(step))
               == if kind.Some? then Advance(TrailOf(s, JobOf(step)), kind.value) else TrailOf(s, JobOf(step))
  {
    hide KeyOk;
    if JobOf(step) in s.jobs { assert RowOk(s, JobOf(step)); }
  }

  lemma StepExtendsTrail(s: QueueState, step: Step, id: string)
    requires Inv(s) && Enabled(s, step)
    requires Replay(s.events, id) == TrailOf(s, id)
    ensures Replay(Do(s, step).events, id) == TrailOf(Do(s, step), id)
  {
    hide Inv, Enabled, EventKindOf, NewRow, Advance, Replay;
    var row := NewRow(s, step);
    var kind := EventKindOf(step, row);
    StepEvents(s, step);
    StepAdvancesTrail(s, step);
    if kind.Some? {
      ReplayNext(s.events, EventFor(row, kind.value), id);
    }
  }

  /** Replaying the events of a job rebuilds its status and attempt count after
      any run; the trail never contains an impossible event. */
  lemma {:induction false} EventsDetermineJobs(s: QueueState, steps: seq<Step>, id: string)
    requires Inv(s) && Legal(s, steps)
    requires Replay(s.events, id) == TrailOf(s, id)
    ensures Replay(DoAll(s, steps).events, id) == TrailOf(DoAll(s, steps), id)
    decreases |steps|
  {
    hide Inv, Do, Enabled, TrailOf, Replay;
    if steps != [] {
      StepExtendsTrail(s, steps[0], id);
      StepKeepsInv(s, steps[0]);
      EventsDetermineJobs(Do(s, steps[0]), steps[1..], id);
    }
  }

  predicate OpensLease(kind: JobEventKind) { kind.LeaseGranted? }

  predicate ClosesLease(kind: JobEventKind) {
    kind.LeaseExpired? || kind.RetryScheduled? || kind.DeadLettered? || kind.Completed?
  }

  /** LEASED events minus LEASE_EXPIRED, RETRY_SCHEDULED, DEAD and SUCCEEDED events. */
  function LeaseBalance(events: seq<JobEvent>, id: string): int
    decreases |events|
  {
    if events == [] then 0
    else
      var last := events[|events| - 1];
      LeaseBalance(events[..|events| - 1], id)
      + (if last.jobId != id then 0 else if OpensLease(last.kind) then 1 else if ClosesLease(last.kind) then -1 else 0)
  }

  lemma {:induction false} UnbrokenTrailBalances(events: seq<JobEvent>, id: string)
    requires !Replay(events, id).Broken?
    requires ExpiriesRelease(events)
    ensures LeaseBalance(events, id)
         == if Replay(events, id).At? && Replay(events, id).status.Leased? then 1 else 0
    decreases |events|
  {
    if events != [] {
      UnbrokenTrailBalances(events[..|events| - 1], id);
    }
  }

  predicate ExpiriesRelease(events: seq<JobEvent>) {
    forall e | e in events && e.kind.LeaseExpired? :: !e.kind.status.Leased?
  }

  lemma {:induction false} ExpiryReleases(s: QueueState, steps: seq<Step>)
    requires Legal(s, steps) && ExpiriesRelease(s.events)
    ensures ExpiriesRelease(DoAll(s, steps).events)
    decreases |steps|
  {
    if steps != [] {
      ExpiryReleases(Do(s, steps[0]), steps[1..]);
    }
  }

  /** The event log determines the queue: in every reachable state the trail of
      each job replays to its row, and its lease events balance to one exactly
      when the job is leased. */
  lemma LogDeterminesQueue(calls: seq<Call>, id: string)
    requires IsRun(EMPTY_QUEUE, calls)
    ensures Replay(After(EMPTY_QUEUE, calls).events, id) == TrailOf(After(EMPTY_QUEUE, calls), id)
    ensures LeaseBalance(After(EMPTY_QUEUE, calls).events, id)
         == if id in After(EMPTY_QUEUE, calls).jobs && After(EMPTY_QUEUE, calls).jobs[id].status.Leased? then 1 else 0
  {
    RunIsHistory(EMPTY_QUEUE, calls);
    EventsDetermineJobs(EMPTY_QUEUE, History(EMPTY_QUEUE, calls), id);
    ExpiryReleases(EMPTY_QUEUE, History(EMPTY_QUEUE, calls));
    UnbrokenTrailBalances(After(EMPTY_QUEUE, calls).events, id);
  }

  /** The trail is append-only. */
  lemma {:induction false} TrailOnlyGrows(s: QueueState, steps: seq<Step>)
    requires Legal(s, steps)
    ensures s.events <= DoAll(s, steps).events
    decreases |steps|
  {
    if steps != [] {
      TrailOnlyGrows(Do(s, steps[0]), steps[1..]);
    }
  }

  // ---------- the attempt budget ----------

  /** How many more row-changing steps a job can still see. */
  function Budget(row: StoredJob): int {
    if row.IsTerminal() then 0
    else 2 * (row.spec.maxAttempts - row.attempts) + (if row.status.Leased? then 1 else 0)
  }

  /** Every step on an existing job except a heartbeat strictly uses up budget. */
  lemma StepSpendsBudget(s: QueueState, step: Step)
    requires Inv(s) && Enabled(s, step) && !step.Insert? && !step.Extend?
    ensures 0 <= Budget(Do(s, step).jobs[JobOf(step)]) < Budget(s.jobs[JobOf(step)])
  {
    assert RowOk(s, JobOf(step));
  }

  function EventCount(events: seq<JobEvent>, id: string): nat
    decreases |events|
  {
    if events == [] then 0
    else EventCount(events[..|events| - 1], id) + (if events[|events| - 1].jobId == id then 1 else 0)
  }

  ghost predicate WithinBudget(s: QueueState, id: string) {
    if id in s.jobs
    then EventCount(s.events, id) + Budget(s.jobs[id]) <= 1 + 2 * s.jobs[id].spec.maxAttempts
    else EventCount(s.events, id) == 0
  }

  /** A step that writes an event uses up at least as much budget. */
  lemma StepStaysWithinBudget(s: QueueState, step: Step, id: string)
    requires Inv(s) && Enabled(s, step) && WithinBudget(s, id)
    ensures WithinBudget(Do(s, step), id)
  {
    hide Inv, Replay, EventCount, Advance;
    var row := NewRow(s, step);
    var kind := EventKindOf(step, row);
    StepEvents(s, step);
    StepAdvancesTrail(s, step);
    if kind.Some? {
      ReplayNext(s.events, EventFor(row, kind.value), id);
    }
    if JobOf(step) == id && !step.Insert? && !step.Extend? {
      StepSpendsBudget(s, step);
    }
  }

  lemma {:induction false} StepsStayWithinBudget(s: QueueState, steps: seq<Step>, id: string)
    requires Inv(s) && Legal(s, steps) && WithinBudget(s, id)
    ensures WithinBudget(DoAll(s, steps), id)
    decreases |steps|
  {
    hide Inv, Do, Enabled, WithinBudget;
    if steps != [] {
      StepStaysWithinBudget(s, steps[0], id);
      StepKeepsInv(s, steps[0]);
      StepsStayWithinBudget(Do(s, steps[0]), steps[1..], id);
    }
  }

  /** A job never produces more than 1 + 2 * max_attempts events. */
  lemma EventsPerJobBounded(calls: seq<Call>, id: string)
    requires IsRun(EMPTY_QUEUE, calls) && id in After(EMPTY_QUEUE, calls).jobs
    ensures EventCount(After(EMPTY_QUEUE, calls).events, id) <= 1 + 2 * After(EMPTY_QUEUE, calls).jobs[id].spec.maxAttempts
  {
    RunIsHistory(EMPTY_QUEUE, calls);
    StepsStayWithinBudget(EMPTY_QUEUE, History(EMPTY_QUEUE, calls), id);
    EveryRunKeepsInv(calls);
    assert RowOk(After(EMPTY_QUEUE, calls), id);
  }

  /** No job is stranded: a claim comes back empty exactly when no waiting job is
      due and no lease that ran out still has an attempt left. */
  lemma NoJobStranded(s: QueueState, now: real)
    requires Inv(s)
    ensures Chosen(s, now).None? <==>
            forall id | id in s.jobs ::
              && !(s.jobs[id].IsWaiting() && s.jobs[id].availableAt <= now)
              && !(LeaseRanOut(s, id, now) && s.jobs[id].attempts < s.jobs[id].spec.maxAttempts)
  {
    SweepLegal(s, now);
    var swept := Sweep(s, now);
    forall id | id in s.jobs
      ensures id in ReadyJobs(swept, now) <==>
              || (s.jobs[id].IsWaiting() && s.jobs[id].availableAt <= now)
              || (LeaseRanOut(s, id, now) && s.jobs[id].attempts < s.jobs[id].spec.maxAttempts)
    {
      assert RowOk(s, id);
    }
  }

  // ---------- idempotent enqueue ----------

  /** What `enqueue` answers at clock value `now`. */
  function EnqueueOutcome(s: QueueState, job: EvaluationJob, now: real): Result<StoredJob, QueueError>
    requires Inv(s)
  {
    match Existing(s, job)
    case None => Ok(StoredJob(job.spec, Queued, 0, job.availableAt, None, None, None, now, now))
    case Some(id) =>
      assert job.spec.jobId !in s.jobs ==> KeyOk(s, job.spec.idempotencyKey.value);
      if SameRequest(s.jobs[id], job) then Ok(s.jobs[id]) else Err(IdempotencyConflict)
  }

  /** The request's own id is free and its key belongs to the row of another. */
  predicate HeldElsewhere(s: QueueState, job: EvaluationJob) {
    Existing(s, job).Some? && Existing(s, job).value != job.spec.jobId
  }

  predicate Reschedules(step: Step, id: string) {
    (step.Expire? || step.Release?) && step.jobId == id
  }

  lemma {:induction false} RowKeepsRequest(s: QueueState, steps: seq<Step>, id: string)
    requires Legal(s, steps) && id in s.jobs && s.jobs[id].spec.jobId == id
    ensures id in DoAll(s, steps).jobs
    ensures DoAll(s, steps).jobs[id].spec == s.jobs[id].spec
    ensures (forall step | step in steps :: !Reschedules(step, id))
            ==> DoAll(s, steps).jobs[id].availableAt == s.jobs[id].availableAt
    decreases |steps|
  {
    if steps != [] {
      assert steps[0] in steps;
      RowKeepsRequest(Do(s, steps[0]), steps[1..], id);
    }
  }

  /** Exact condition for idempotent enqueue.  In every state reachable after a
      request was stored, repeating it changes nothing, under the same id or, when
      it has a key, under any other.  It returns the stored row iff the row's
      available_at is still the requested one and the id it carries is not that
      of another row, and otherwise raises a conflict.  The first condition holds
      as long as no failure report or lease expiry has rescheduled the job. */
  lemma ReplayedEnqueue(s: QueueState, job: EvaluationJob, now: real, calls: seq<Call>, again: EvaluationJob, later: real)
    requires Inv(s) && job.Valid() && Existing(s, job).None?
    requires IsRun(Perform(s, CallEnqueue(job, now)), calls)
    requires again.Valid() && SameUpToId(again.spec, job.spec) && again.availableAt == job.availableAt
    requires again.spec.jobId != job.spec.jobId ==> job.spec.idempotencyKey.Some?
    ensures var t := After(Perform(s, CallEnqueue(job, now)), calls);
            var id := job.spec.jobId;
            var free := again.spec.jobId == id || again.spec.jobId !in t.jobs;
            && Inv(t) && id in t.jobs
            && Perform(t, CallEnqueue(again, later)) == t
            && (EnqueueOutcome(t, again, later) == Ok(t.jobs[id])
                <==> free && t.jobs[id].availableAt == job.availableAt)
            && (EnqueueOutcome(t, again, later) == Err(IdempotencyConflict)
                <==> !free || t.jobs[id].availableAt != job.availableAt)
            && ((forall step | step in History(Perform(s, CallEnqueue(job, now)), calls) :: !Reschedules(step, id))
                ==> t.jobs[id].availableAt == job.availableAt)
  {
    hide Inv, Perform;
    var stored := Perform(s, CallEnqueue(job, now));
    SingleStep(s, Insert(job, now));
    assert stored == Do(s, Insert(job, now)) by { InsertPerforms(s, job, now); }
    StepKeepsInv(s, Insert(job, now));
    RunIsHistory(stored, calls);
    RowKeepsRequest(stored, History(stored, calls), job.spec.jobId);
    StepsKeepInv(stored, History(stored, calls));
    RepeatedRequest(After(stored, calls), job, again, later);
  }

  lemma InsertPerforms(s: QueueState, job: EvaluationJob, now: real)
    requires Enabled(s, Insert(job, now))
    ensures Perform(s, CallEnqueue(job, now)) == Do(s, Insert(job, now))
  {
    SingleStep(s, Insert(job, now));
  }

  /** A request is repeated while its row is stored. */
  lemma RepeatedRequest(t: QueueState, job: EvaluationJob, again: EvaluationJob, later: real)
    requires Inv(t) && job.spec.jobId in t.jobs && t.jobs[job.spec.jobId].spec == job.spec
    requires again.Valid() && SameUpToId(again.spec, job.spec) && again.availableAt == job.availableAt
    requires again.spec.jobId != job.spec.jobId ==> job.spec.idempotencyKey.Some?
    ensures Perform(t, CallEnqueue(again, later)) == t
    ensures EnqueueOutcome(t, again, later)
         == if (again.spec.jobId == job.spec.jobId || again.spec.jobId !in t.jobs)
               && t.jobs[job.spec.jobId].availableAt == job.availableAt
            then Ok(t.jobs[job.spec.jobId]) else Err(IdempotencyConflict)
  {
    assert RowOk(t, job.spec.jobId);
    if again.spec.jobId in t.jobs {
      assert RowOk(t, again.spec.jobId);
    }
    assert StepsOf(t, CallEnqueue(again, later)) == [];
  }

  lemma SingleStep(s: QueueState, step: Step)
    requires Enabled(s, step)
    ensures Legal(s, [step]) && DoAll(s, [step]) == Do(s, step)
  {
    assert [step][1..] == [];
    assert DoAll(Do(s, step), []) == Do(s, step);
  }

  /** The failing family: once a failure report or an expiry moves a job to a
      time other than the requested one, resubmitting the request conflicts. */
  lemma RescheduledRequestConflicts(s: QueueState, job: EvaluationJob, step: Step, now: real)
    requires Inv(s) && Enabled(s, step) && Reschedules(step, job.spec.jobId)
    requires (if step.Expire? then step.now else step.availableAt) != job.availableAt
    ensures Inv(Do(s, step)) && EnqueueOutcome(Do(s, step), job, now) == Err(IdempotencyConflict)
  {
    StepKeepsInv(s, step);
  }
}
