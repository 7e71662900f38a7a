/** Draining the queue sorts it. */
module QueueDrain {
  import opened Wrappers
  import opened Ordering
  import opened Text
  import opened JobModel
  import opened QueueTheorems

  datatype Claimant = Claimant(worker: string, token: string, leaseSeconds: real)

  ghost predicate FreshClaimants(s: QueueState, claimants: seq<Claimant>) {
    && (forall c | c in claimants :: !Blank(c.worker) && c.leaseSeconds > 0.0 && c.token !in s.issued)
    && (forall i, j | 0 <= i < j < |claimants| :: claimants[i].token != claimants[j].token)
  }

  function ClaimBy(c: Claimant, now: real): Call {
    CallClaim(c.worker, c.token, c.leaseSeconds, now)
  }

  /** The job ids that repeated claims at one clock value return, in order. */
  ghost function Drain(s: QueueState, claimants: seq<Claimant>, now: real): (answers: seq<Option<string>>)
    requires FreshClaimants(s, claimants)
    ensures |answers| == |claimants|
    decreases |claimants|
  {
    if claimants == [] then []
    else
      ClaimStep(s, claimants[0], now);
      [Chosen(s, now)] + Drain(Perform(s, ClaimBy(claimants[0], now)), Rest(s, claimants, now), now)
  }

  ghost function Rest(s: QueueState, claimants: seq<Claimant>, now: real): (rest: seq<Claimant>)
    requires FreshClaimants(s, claimants) && claimants != []
    ensures |rest| == |claimants| - 1
    ensures FreshClaimants(Perform(s, ClaimBy(claimants[0], now)), rest)
  {
    ClaimStep(s, claimants[0], now);
    claimants[1..]
  }

  /** One claim is a sweep followed, if some job is ready, by its grant. */
  lemma ClaimStep(s: QueueState, c: Claimant, now: real)
    requires !Blank(c.worker) && c.leaseSeconds > 0.0 && c.token !in s.issued
    ensures Admissible(s, ClaimBy(c, now))
    ensures var swept := Sweep(s, now);
            && swept.issued == s.issued
            && (Chosen(s, now).None? ==> Perform(s, ClaimBy(c, now)) == swept)
            && (Chosen(s, now).Some? ==>
                  var grant := Grant(Chosen(s, now).value, c.worker, c.token, now + c.leaseSeconds, now);
                  Enabled(swept, grant) && Perform(s, ClaimBy(c, now)) == Do(swept, grant))
    ensures Perform(s, ClaimBy(c, now)).issued <= s.issued + {c.token}
  {
    SweepLegal(s, now);
    var sweep := SweepSteps(s, now);
    var chosen := Chosen(s, now);
    if chosen.Some? {
      var grant := Grant(chosen.value, c.worker, c.token, now + c.leaseSeconds, now);
      SingleStep(Sweep(s, now), grant);
      DoAllConcat(s, sweep, [grant]);
    } else {
      assert sweep + [] == sweep;
    }
  }

  lemma SweptIsStable(s: QueueState, now: real)
    requires ExpiredJobs(s, now) == {}
    ensures Sweep(s, now) == s
  {}

  lemma SweepLeavesNoneExpired(s: QueueState, now: real)
    ensures ExpiredJobs(Sweep(s, now), now) == {}
  {
    SweepLegal(s, now);
  }

  function Shorter(a: nat, b: nat): nat {
    if a <= b then a else b
  }

  /** `answers` lists `ready` in claim order, each job once, as far as it goes:
      what is not listed comes after everything that is, and an answer is empty
      only once all are listed. */
  ghost predicate ListsInOrder(order: Order, ready: set<string>, answers: seq<Option<string>>) {
    var m := Shorter(|ready|, |answers|);
    && (forall k | 0 <= k < m :: answers[k].Some? && answers[k].value in ready)
    && (forall k | m <= k < |answers| :: answers[k].None?)
    && (forall i, j | 0 <= i < j < m :: order(answers[i].value, answers[j].value))
    && (forall id | id in ready && Some(id) !in answers :: forall k | 0 <= k < m :: order(answers[k].value, id))
    && (|ready| <= |answers| ==> forall id | id in ready :: Some(id) in answers)
  }

  /** A claim on a swept queue: nothing when no job is ready, and otherwise the
      first ready job, after which the others are exactly the ready ones. */
  lemma ClaimOnSwept(s: QueueState, c: Claimant, now: real)
    requires Inv(s) && ExpiredJobs(s, now) == {}
    requires !Blank(c.worker) && c.leaseSeconds > 0.0 && c.token !in s.issued
    ensures var t, ready := Perform(s, ClaimBy(c, now)), ReadyJobs(s, now);
            && Inv(t) && ExpiredJobs(t, now) == {}
            && (ready == {} ==> Chosen(s, now).None? && t == s)
            && (ready != {} ==>
                  && Chosen(s, now).Some? && IsFirst(ClaimOrder(s.jobs), ready, Chosen(s, now).value)
                  && ReadyJobs(t, now) == ready - {Chosen(s, now).value}
                  && (forall a, b | a in ReadyJobs(t, now) && b in ReadyJobs(t, now) ::
                        ClaimOrder(t.jobs)(a, b) <==> ClaimOrder(s.jobs)(a, b)))
  {
    SweptIsStable(s, now);
    ClaimStep(s, c, now);
    var ready := ReadyJobs(s, now);
    ClaimOrderTotal(s.jobs, ready);
    if ready != {} {
      var grant := Grant(Chosen(s, now).value, c.worker, c.token, now + c.leaseSeconds, now);
      StepKeepsInv(s, grant);
      assert ReadyJobs(Do(s, grant), now) == ready - {grant.jobId};
      GrantKeepsOrder(s, grant, ready - {grant.jobId});
    }
  }

  lemma DrainUnfolds(s: QueueState, claimants: seq<Claimant>, now: real) returns (t: QueueState, rest: seq<Claimant>)
    requires FreshClaimants(s, claimants) && claimants != []
    ensures t == Perform(s, ClaimBy(claimants[0], now))
    ensures rest == claimants[1..] && FreshClaimants(t, rest)
    ensures Drain(s, claimants, now) == [Chosen(s, now)] + Drain(t, rest, now)
  {
    rest := Rest(s, claimants, now);
    t := Perform(s, ClaimBy(claimants[0], now));
  }

  lemma {:induction false} DrainSwept(s: QueueState, claimants: seq<Claimant>, now: real)
    requires Inv(s) && FreshClaimants(s, claimants)
    requires ExpiredJobs(s, now) == {}
    ensures ListsInOrder(ClaimOrder(s.jobs), ReadyJobs(s, now), Drain(s, claimants, now))
    decreases |claimants|
  {
    if claimants != [] {
      ClaimOnSwept(s, claimants[0], now);
      var t, rest := DrainUnfolds(s, claimants, now);
      DrainSwept(t, rest, now);
      var ready := ReadyJobs(s, now);
      if ready == {} {
        ListsNothing(ClaimOrder(s.jobs), ClaimOrder(t.jobs), Drain(t, rest, now));
      } else {
        ListExtends(ClaimOrder(s.jobs), ClaimOrder(t.jobs), ready, Chosen(s, now).value, Drain(t, rest, now));
      }
    }
  }

  lemma ListsNothing(order: Order, later: Order, rest: seq<Option<string>>)
    requires ListsInOrder(later, {}, rest)
    ensures ListsInOrder(order, {}, [None] + rest)
  {}

  lemma GrantKeepsOrder(s: QueueState, grant: Step, others: set<string>)
    requires Enabled(s, grant) && grant.Grant? && grant.jobId !in others && others <= s.jobs.Keys
    ensures forall a, b | a in others && b in others ::
              ClaimOrder(Do(s, grant).jobs)(a, b) <==> ClaimOrder(s.jobs)(a, b)
  {}

  lemma ListExtends(order: Order, later: Order, ready: set<string>, id: string, rest: seq<Option<string>>)
    requires IsFirst(order, ready, id)
    requires forall a, b | a in ready - {id} && b in ready - {id} :: later(a, b) <==> order(a, b)
    requires ListsInOrder(later, ready - {id}, rest)
    ensures ListsInOrder(order, ready, [Some(id)] + rest)
  {
    var answers := [Some(id)] + rest;
    var m := Shorter(|ready|, |answers|);
    assert |ready - {id}| == |ready| - 1;
    forall k | 0 <= k < m ensures answers[k].Some? && answers[k].value in ready {
      if k > 0 { assert answers[k] == rest[k - 1]; }
    }
    forall i, j | 0 <= i < j < m ensures order(answers[i].value, answers[j].value) {
      assert answers[j] == rest[j - 1];
      if i > 0 { assert answers[i] == rest[i - 1]; }
    }
    forall other | other in ready ensures Some(other) in answers <==> other == id || Some(other) in rest {
      assert Some(other) in rest ==> Some(other) in answers;
      assert answers[0] == Some(id);
    }
    forall other, k | other in ready && Some(other) !in answers && 0 <= k < m
      ensures order(answers[k].value, other)
    {
      assert other in ready - {id} && Some(other) !in rest;
      if k > 0 {
        assert answers[k] == rest[k - 1];
        assert later(rest[k - 1].value, other);
      }
    }
  }

  /** Any number of claims at one clock value, with positive leases and no other
      traffic, return the jobs ready after the first sweep, each once, by priority
      descending, then available_at, created_at and job id, leaving out only the
      last ones when there are too few claims, and from then on nothing. */
  lemma DrainSorts(s: QueueState, claimants: seq<Claimant>, now: real)
    requires Inv(s) && FreshClaimants(s, claimants)
    ensures ListsInOrder(ClaimOrder(Sweep(s, now).jobs), ReadyJobs(Sweep(s, now), now), Drain(s, claimants, now))
  {
    SweptQueue(s, now);
    if claimants != [] {
      SweepFirst(s, claimants, now);
    }
    DrainSwept(Sweep(s, now), claimants, now);
  }

  lemma SweptQueue(s: QueueState, now: real)
    requires Inv(s)
    ensures Inv(Sweep(s, now)) && ExpiredJobs(Sweep(s, now), now) == {}
    ensures Sweep(s, now).issued == s.issued
    ensures Sweep(Sweep(s, now), now) == Sweep(s, now)
    ensures Chosen(Sweep(s, now), now) == Chosen(s, now)
  {
    SweepLegal(s, now);
    StepsKeepInv(s, SweepSteps(s, now));
    SweepLeavesNoneExpired(s, now);
    SweptIsStable(Sweep(s, now), now);
  }

  lemma SweepFirst(s: QueueState, claimants: seq<Claimant>, now: real)
    requires Inv(s) && FreshClaimants(s, claimants) && claimants != []
    ensures FreshClaimants(Sweep(s, now), claimants)
    ensures Drain(s, claimants, now) == Drain(Sweep(s, now), claimants, now)
  {
    ClaimSweepsFirst(s, claimants[0], now);
    var t, rest := DrainUnfolds(s, claimants, now);
    var t', rest' := DrainUnfolds(Sweep(s, now), claimants, now);
  }

  lemma ClaimSweepsFirst(s: QueueState, c: Claimant, now: real)
    requires Inv(s) && !Blank(c.worker) && c.leaseSeconds > 0.0 && c.token !in s.issued
    ensures Sweep(s, now).issued == s.issued && Chosen(Sweep(s, now), now) == Chosen(s, now)
    ensures Admissible(Sweep(s, now), ClaimBy(c, now)) && Admissible(s, ClaimBy(c, now))
    ensures Perform(s, ClaimBy(c, now)) == Perform(Sweep(s, now), ClaimBy(c, now))
  {
    SweptQueue(s, now);
    ClaimStep(s, c, now);
    ClaimStep(Sweep(s, now), c, now);
  }
}
