/** The evaluation queue as the workers and the controller use it: one object,
    each method one immediate transaction.  Every method is proved against the
    calls of JobModel, so the theorems of QueueTheorems and QueueDrain hold of
    any interleaving of these methods. */
module JobQueue {
  import opened Wrappers
  import opened JsonValue
  import opened Ordering
  import opened Text
  import opened JobModel
  import opened QueueTheorems
  import opened QueueDrain

  /** The row an ORDER BY ... LIMIT 1 query returns. */
  method SelectFirst(less: Order, ids: set<string>) returns (first: string)
    requires TotalOn(less, ids) && ids != {}
    ensures first == First(less, ids)
  {
    first :| first in ids;
    var rest := ids - {first};
    while rest != {}
      invariant rest <= ids && first in ids
      invariant forall id | id in ids - rest :: id != first ==> less(first, id)
      decreases |rest|
    {
      var candidate :| candidate in rest;
      if less(candidate, first) {
        first := candidate;
      }
      rest := rest - {candidate};
    }
    assert IsFirst(less, ids, first);
  }

  /** All rows of an ORDER BY query, fetched before any of them is changed. */
  method FetchAll(less: Order, ids: set<string>) returns (list: seq<string>)
    requires TotalOn(less, ids)
    ensures list == Listing(less, ids)
  {
    list := [];
    var rest := ids;
    while rest != {}
      invariant rest <= ids && Listing(less, ids) == list + Listing(less, rest)
      decreases |rest|
    {
      var first := SelectFirst(less, rest);
      list := list + [first];
      rest := rest - {first};
    }
  }

  class EvaluationJobQueue {
    var jobs: map<string, StoredJob>
    var byKey: map<string, string>
    var events: seq<JobEvent>
    ghost var issued: set<string>

    ghost function State(): QueueState
      reads this
    {
      QueueState(jobs, byKey, events, issued)
    }

    ghost predicate Valid()
      reads this
    {
      Inv(State())
    }

    constructor ()
      ensures Valid() && State() == EMPTY_QUEUE
    {
      jobs, byKey, events, issued := map[], map[], [], {};
    }

    /** Reads one row. */
    method Get(jobId: string) returns (row: Option<StoredJob>)
      ensures row == if jobId in jobs then Some(jobs[jobId]) else None
    {
      row := if jobId in jobs then Some(jobs[jobId]) else None;
    }

    /** The UPDATE (or INSERT) of one row with its event, inside a transaction. */
    method Write(step: Step) returns (row: StoredJob)
      requires Valid() && Enabled(State(), step)
      modifies this
      ensures Valid() && State() == Do(old(State()), step)
      ensures row == NewRow(old(State()), step) && jobs == old(jobs)[JobOf(step) := row]
    {
      hide Inv;
      StepKeepsInv(State(), step);
      NewRowIgnoresTokens(State(), step);
      row := NewRow(QueueState(jobs, byKey, events, {}), step);
      var kind := EventKindOf(step, row);
      if kind.Some? {
        events := events + [EventFor(row, kind.value)];
      }
      jobs := jobs[JobOf(step) := row];
      if step.Insert? && row.spec.idempotencyKey.Some? {
        byKey := byKey[row.spec.idempotencyKey.value := row.spec.jobId];
      }
      if step.Grant? {
        issued := issued + {step.token};
      }
    }

    method Enqueue(job: EvaluationJob, now: real) returns (answer: Result<StoredJob, QueueError>)
      requires Valid() && job.Valid()
      modifies this
      ensures Valid() && State() == Perform(old(State()), CallEnqueue(job, now))
      ensures answer == EnqueueOutcome(old(State()), job, now)
    {
      var existing := None;
      if job.spec.jobId in jobs {
        existing := Some(job.spec.jobId);
      } else if job.spec.idempotencyKey.Some? && job.spec.idempotencyKey.value in byKey {
        existing := Some(byKey[job.spec.idempotencyKey.value]);
        assert KeyOk(State(), job.spec.idempotencyKey.value);
      }
      if existing.Some? {
        var row := jobs[existing.value];
        if SameRequest(row, job) {
          return Ok(row);
        }
        return Err(IdempotencyConflict);
      }
      SingleStep(State(), Insert(job, now));
      var row := Write(Insert(job, now));
      answer := Ok(row);
    }

    /** Requeues abandoned work, or dead-letters it after the last attempt, in
        order of expiry; returns the new rows in that order. */
    method SweepExpired(now: real) returns (expired: seq<StoredJob>)
      requires Valid()
      modifies this
      ensures Valid() && State() == Sweep(old(State()), now)
      ensures var ids := ExpiredList(old(State()), now);
              && |expired| == |ids|
              && forall i | 0 <= i < |ids| :: ids[i] in jobs && expired[i] == jobs[ids[i]]
    {
      hide Do, NewRow, Inv, ExpiredList;
      ghost var swept := Sweep(State(), now);
      var ids := FetchExpired(now);
      expired := [];
      ghost var steps := Expirations(ids, now);
      assert steps[0..] == steps;
      for i := 0 to |ids|
        invariant Valid() && |expired| == i
        invariant forall k | i <= k < |ids| :: LeaseRanOut(State(), ids[k], now)
        invariant Legal(State(), steps[i..]) && DoAll(State(), steps[i..]) == swept
        invariant forall k | 0 <= k < i :: ids[k] in jobs && expired[k] == jobs[ids[k]]
      {
        assert steps[i..][1..] == steps[i + 1..];
        var row := Write(Expire(ids[i], now));
        expired := expired + [row];
      }
    }

    /** The rows the sweep will visit, read before it changes any. */
    method FetchExpired(now: real) returns (ids: seq<string>)
      requires Valid()
      ensures ids == ExpiredList(State(), now)
      ensures forall id | id in ids :: LeaseRanOut(State(), id, now)
      ensures forall i, j | 0 <= i < j < |ids| :: ids[i] != ids[j]
      ensures Legal(State(), Expirations(ids, now)) && DoAll(State(), Expirations(ids, now)) == Sweep(State(), now)
    {
      var ranOut := set id | id in jobs && jobs[id].status.Leased? && jobs[id].lease.Some?
                                        && jobs[id].lease.value.expiresAt <= now;
      assert ranOut == ExpiredJobs(State(), now);
      ExpiryOrderTotal(jobs, ranOut);
      ids := FetchAll(ExpiryOrder(jobs), ranOut);
      ListingIsSorted(ExpiryOrder(jobs), ranOut);
      SweepLegal(State(), now);
    }

    /** Atomically claims the first ready job. */
    method Claim(worker: string, token: string, leaseSeconds: real, now: real)
      returns (answer: Result<Option<StoredJob>, QueueError>)
      requires Valid() && token !in issued
      modifies this
      ensures Valid() && State() == Perform(old(State()), CallClaim(worker, token, leaseSeconds, now))
      ensures Blank(worker) || leaseSeconds <= 0.0 ==> answer == Err(InvalidArgument)
      ensures !Blank(worker) && leaseSeconds > 0.0 ==>
                && answer.Ok?
                && (answer.value.Some? <==> Chosen(old(State()), now).Some?)
                && (answer.value.Some? ==>
                      var id := Chosen(old(State()), now).value;
                      HoldsLease(State(), id, worker, token, now) && answer.value.value == jobs[id])
    {
      hide Inv;
      BlankMeansStripped(worker);
      if Strip(worker) == "" || leaseSeconds <= 0.0 {
        return Err(InvalidArgument);
      }
      ghost var start := State();
      ClaimStep(start, Claimant(worker, token, leaseSeconds), now);
      var _ := SweepExpired(now);
      var ready := set id | id in jobs && jobs[id].IsWaiting() && jobs[id].availableAt <= now
                                       && jobs[id].attempts < jobs[id].spec.maxAttempts;
      assert ready == ReadyJobs(State(), now);
      if ready == {} {
        return Ok(None);
      }
      ClaimOrderTotal(jobs, ready);
      var id := SelectFirst(ClaimOrder(jobs), ready);
      var grant := Grant(id, worker, token, now + leaseSeconds, now);
      var row := Write(grant);
      answer := Ok(Some(row));
    }

    /** Extends a live lease. */
    method Heartbeat(jobId: string, worker: string, token: string, leaseSeconds: real, now: real)
      returns (answer: Result<StoredJob, QueueError>)
      requires Valid()
      modifies this
      ensures Valid() && State() == Perform(old(State()), CallHeartbeat(jobId, worker, token, leaseSeconds, now))
      ensures answer.Ok? <==> leaseSeconds > 0.0 && HoldsLease(old(State()), jobId, worker, token, now)
      ensures answer.Ok? ==> jobId in jobs && answer.value == jobs[jobId]
      ensures answer.Err? ==> answer.error == if leaseSeconds <= 0.0 then InvalidArgument else LeaseLost
    {
      if leaseSeconds <= 0.0 {
        return Err(InvalidArgument);
      }
      var held := OwnsLease(jobId, worker, token, now);
      if !held {
        return Err(LeaseLost);
      }
      var step := Extend(jobId, worker, token, now + leaseSeconds, now);
      SingleStep(State(), step);
      var row := Write(step);
      answer := Ok(row);
    }

    /** Commits a result while the caller still owns a live lease. */
    method Complete(jobId: string, worker: string, token: string, result: Json, now: real)
      returns (answer: Result<StoredJob, QueueError>)
      requires Valid()
      modifies this
      ensures Valid() && State() == Perform(old(State()), CallComplete(jobId, worker, token, result, now))
      ensures answer.Ok? <==> HoldsLease(old(State()), jobId, worker, token, now)
      ensures answer.Ok? ==> jobId in jobs && answer.value == jobs[jobId] && jobs[jobId].result == Some(result)
      ensures answer.Err? ==> answer.error == LeaseLost
    {
      var held := OwnsLease(jobId, worker, token, now);
      if !held {
        return Err(LeaseLost);
      }
      var step := Finish(jobId, worker, token, result, now);
      SingleStep(State(), step);
      var row := Write(step);
      answer := Ok(row);
    }

    /** Releases a failed lease into retry-wait or the dead-letter state. */
    method Fail(jobId: string, worker: string, token: string, error: Json, retryable: bool, delay: real, now: real)
      returns (answer: Result<StoredJob, QueueError>)
      requires Valid()
      modifies this
      ensures Valid()
      ensures State() == Perform(old(State()), CallFail(jobId, worker, token, error, retryable, delay, now))
      ensures answer.Ok? <==> delay >= 0.0 && HoldsLease(old(State()), jobId, worker, token, now)
      ensures answer.Ok? ==> jobId in jobs && answer.value == jobs[jobId]
      ensures answer.Err? ==> answer.error == if delay < 0.0 then InvalidArgument else LeaseLost
    {
      if delay < 0.0 {
        return Err(InvalidArgument);
      }
      var held := OwnsLease(jobId, worker, token, now);
      if !held {
        return Err(LeaseLost);
      }
      var step := Release(jobId, worker, token, error, retryable, now + delay, now);
      SingleStep(State(), step);
      var row := Write(step);
      answer := Ok(row);
    }

    /** Cancels work that is not leased; says whether it changed. */
    method CancelJob(jobId: string, now: real) returns (changed: bool)
      requires Valid()
      modifies this
      ensures Valid() && State() == Perform(old(State()), CallCancel(jobId, now))
      ensures changed <==> jobId in old(jobs) && old(jobs)[jobId].IsWaiting()
    {
      if jobId !in jobs || !jobs[jobId].IsWaiting() {
        return false;
      }
      SingleStep(State(), Cancel(jobId, now));
      var _ := Write(Cancel(jobId, now));
      changed := true;
    }

    /** The row count of the guarded UPDATE: does this worker own a live lease? */
    method OwnsLease(jobId: string, worker: string, token: string, now: real) returns (held: bool)
      ensures held <==> HoldsLease(State(), jobId, worker, token, now)
    {
      held := HoldsLease(QueueState(jobs, byKey, events, {}), jobId, worker, token, now);
    }
  }

  /** The row a step writes does not depend on the tokens handed out. */
  lemma NewRowIgnoresTokens(s: QueueState, step: Step)
    requires Enabled(s, step)
    ensures Enabled(s.(issued := {}), step) && NewRow(s.(issued := {}), step) == NewRow(s, step)
  {
  }
}
