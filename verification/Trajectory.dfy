/** The phase plan of a task's rounds and the verifier's test of it. */
module Trajectory {
  import opened Wrappers

  datatype Phase = Repair | Optimization | OptimizationRepair

  /** What one round is told: its phase, the index within it, the repair attempt. */
  datatype Plan = Plan(phase: Phase, index: nat, attempt: nat)

  /** How many of the outcomes were ready. */
  function Successes(ready: seq<bool>): nat
    decreases |ready|
  {
    if ready == [] then 0
    else Successes(ready[..|ready| - 1]) + if ready[|ready| - 1] then 1 else 0
  }

  /** How many outcomes since the last ready one were not. */
  function TrailingFailures(ready: seq<bool>): nat
    decreases |ready|
  {
    if ready == [] || ready[|ready| - 1] then 0 else TrailingFailures(ready[..|ready| - 1]) + 1
  }

  /** The plan of the round after the given outcomes. */
  function PlanAfter(ready: seq<bool>): Plan {
    if true !in ready then Plan(Repair, |ready| + 1, 0)
    else if ready[|ready| - 1] then Plan(Optimization, Successes(ready), 0)
    else Plan(OptimizationRepair, Successes(ready), TrailingFailures(ready))
  }

  /** The plans of the first `rounds` rounds, given the outcomes of those before. */
  function Plans(ready: seq<bool>, rounds: nat): (plans: seq<Plan>)
    requires rounds <= |ready| + 1
    ensures |plans| == rounds
    ensures forall i | 0 <= i < rounds :: plans[i] == PlanAfter(ready[..i])
  {
    seq(rounds, i requires 0 <= i < rounds => PlanAfter(ready[..i]))
  }

  function Count(plans: seq<Plan>, phase: Phase): nat
    decreases |plans|
  {
    if plans == [] then 0
    else Count(plans[..|plans| - 1], phase) + if plans[|plans| - 1].phase == phase then 1 else 0
  }

  lemma {:induction false} SuccessMeansOne(ready: seq<bool>)
    ensures Successes(ready) >= 1 <==> true in ready
    decreases |ready|
  {
    if ready != [] {
      SuccessMeansOne(ready[..|ready| - 1]);
      assert ready == ready[..|ready| - 1] + [ready[|ready| - 1]];
    }
  }

  /** What the loop's counters hold at the top of a round. */
  ghost predicate CountersAgree(ready: seq<bool>, repairCount: nat, optimizationCount: nat,
                                activeOptimization: nat, repairAttempt: nat, seedReady: bool) {
    && seedReady == (true in ready)
    && (!seedReady ==> repairCount == |ready|)
    && optimizationCount == activeOptimization
    && optimizationCount == (if ready == [] then 0 else Successes(ready[..|ready| - 1]))
    && (ready != [] ==> repairAttempt == PlanAfter(ready[..|ready| - 1]).attempt)
  }

  /** One pass through the loop's branches computes the closed form. */
  lemma BranchesComputePlan(ready: seq<bool>, repairCount: nat, optimizationCount: nat,
                            activeOptimization: nat, repairAttempt: nat, seedReady: bool)
    requires CountersAgree(ready, repairCount, optimizationCount, activeOptimization, repairAttempt, seedReady)
    ensures seedReady == (true in ready) && optimizationCount == activeOptimization
    ensures !seedReady ==> PlanAfter(ready) == Plan(Repair, repairCount + 1, 0) && repairCount == |ready|
    ensures seedReady ==> ready != []
    ensures seedReady && !ready[|ready| - 1] ==>
              PlanAfter(ready) == Plan(OptimizationRepair, activeOptimization, repairAttempt + 1)
    ensures seedReady && ready[|ready| - 1] ==> PlanAfter(ready) == Plan(Optimization, optimizationCount + 1, 0)
    ensures Successes(ready) == if seedReady && ready[|ready| - 1] then optimizationCount + 1 else optimizationCount
  {
    SuccessMeansOne(ready);
    if ready != [] {
      var front := ready[..|ready| - 1];
      assert ready == front + [ready[|ready| - 1]];
      SuccessMeansOne(front);
    }
  }

  /** The phases of a whole trajectory: rounds up to and including the first
      ready one repair; each later round optimizes iff its predecessor was
      ready; every index counts the rounds of its kind so far and is positive. */
  lemma TrajectoryShape(ready: seq<bool>, i: nat)
    requires i <= |ready|
    ensures var plan := PlanAfter(ready[..i]);
            && (plan.phase.Repair? <==> forall j | 0 <= j < i :: !ready[j])
            && (plan.phase.Optimization? <==> i > 0 && ready[i - 1])
            && (plan.phase.OptimizationRepair? <==> i > 0 && !ready[i - 1] && exists j | 0 <= j < i :: ready[j])
            && plan.index >= 1
            && plan.index == Count(Plans(ready, i + 1), if plan.phase.Repair? then Repair else Optimization)
            && (plan.attempt >= 1 <==> plan.phase.OptimizationRepair?)
  {
    SuccessMeansOne(ready[..i]);
    assert true in ready[..i] <==> exists j :: 0 <= j < i && ready[j] by {
      assert forall j | 0 <= j < i :: ready[..i][j] == ready[j];
    }
    PhaseOccurrences(ready, i + 1);
  }

  /** How often each phase occurs among the first rounds. */
  lemma {:induction false} PhaseOccurrences(ready: seq<bool>, rounds: nat)
    requires 1 <= rounds <= |ready| + 1
    ensures var seen := ready[..rounds - 1];
            && Count(Plans(ready, rounds), Optimization) == Successes(seen)
            && (true !in seen ==> Count(Plans(ready, rounds), Repair) == rounds)
    decreases rounds
  {
    var plans, front := Plans(ready, rounds), Plans(ready, rounds - 1);
    assert plans[..rounds - 1] == front;
    if rounds > 1 {
      PhaseOccurrences(ready, rounds - 1);
      assert ready[..rounds - 1][..rounds - 2] == ready[..rounds - 2];
      assert true in ready[..rounds - 2] ==> true in ready[..rounds - 1] by {
        assert ready[..rounds - 1] == ready[..rounds - 2] + [ready[rounds - 2]];
      }
      SuccessMeansOne(ready[..rounds - 1]);
    }
  }

  lemma {:induction false} CountsAddUp(plans: seq<Plan>)
    ensures Count(plans, Repair) + Count(plans, Optimization) + Count(plans, OptimizationRepair) == |plans|
    decreases |plans|
  {
    if plans != [] {
      CountsAddUp(plans[..|plans| - 1]);
    }
  }

  /** The first round always repairs, so a run of N rounds never has N
      optimization rounds. */
  lemma {:induction false} FirstRoundRepairs(ready: seq<bool>, rounds: nat)
    requires 1 <= rounds <= |ready| + 1
    ensures Count(Plans(ready, rounds), Repair) >= 1
    ensures Count(Plans(ready, rounds), Optimization) < rounds
    decreases rounds
  {
    var plans := Plans(ready, rounds);
    if rounds > 1 {
      assert plans[..rounds - 1] == Plans(ready, rounds - 1);
      FirstRoundRepairs(ready, rounds - 1);
    } else {
      assert plans == [Plan(Repair, 1, 0)];
      assert plans[..0] == [];
    }
    CountsAddUp(plans);
  }

  // ---------- counting committed evaluations ----------

  datatype PhaseCounts = PhaseCounts(repair: nat, optimization: nat, optimizationRepair: nat)

  function Tally(plans: seq<Plan>): PhaseCounts {
    PhaseCounts(Count(plans, Repair), Count(plans, Optimization), Count(plans, OptimizationRepair))
  }

  /** The verifier's: an artifact without a phase makes the counts unknown. */
  method TrajectoryPhaseCounts(artifacts: seq<Option<Plan>>) returns (counts: Option<PhaseCounts>)
    ensures counts.None? <==> None in artifacts
    ensures forall plans: seq<Plan> :: artifacts == Present(plans) ==> counts == Some(Tally(plans))
  {
    var repair, optimization, optimizationRepair := 0, 0, 0;
    ghost var seen: seq<Plan> := [];
    for i := 0 to |artifacts|
      invariant None !in artifacts[..i]
      invariant artifacts[..i] == Present(seen)
      invariant Tally(seen) == PhaseCounts(repair, optimization, optimizationRepair)
    {
      if artifacts[i].None? {
        return None;
      }
      match artifacts[i].value.phase {
        case Repair => repair := repair + 1;
        case Optimization => optimization := optimization + 1;
        case OptimizationRepair => optimizationRepair := optimizationRepair + 1;
      }
      assert (seen + [artifacts[i].value])[..i] == seen;
      seen := seen + [artifacts[i].value];
    }
    assert artifacts[..|artifacts|] == artifacts;
    counts := Some(PhaseCounts(repair, optimization, optimizationRepair));
    forall plans: seq<Plan> | artifacts == Present(plans)
      ensures counts == Some(Tally(plans))
    {
      PresentIsInjective(plans, seen);
    }
  }

  function Present(plans: seq<Plan>): (artifacts: seq<Option<Plan>>)
    ensures |artifacts| == |plans| && forall i | 0 <= i < |plans| :: artifacts[i] == Some(plans[i])
  {
    seq(|plans|, i requires 0 <= i < |plans| => Some(plans[i]))
  }

  lemma PresentIsInjective(a: seq<Plan>, b: seq<Plan>)
    requires Present(a) == Present(b)
    ensures a == b
  {
    forall i | 0 <= i < |a| ensures a[i] == b[i] {
      assert Present(a)[i] == Present(b)[i];
    }
  }

  // ---------- the verifier's round-count test ----------

  const BUDGET_COMPLETED := "optimization_round_budget_completed"
  const HOST_DISPATCH_LIMITED := "host_dispatch_limited"
  const REPAIR_EXHAUSTED := "repair_exhausted"

  /** The figures a final result carries. */
  datatype FinalFigures = FinalFigures(
    repairRounds: int, optimizationRounds: int, status: string, terminationReason: string)

  function MaximumPhysicalRounds(optimizationRounds: int, maximumRepairRounds: int): int {
    optimizationRounds
  }

  predicate PhaseCountMismatch(counts: Option<PhaseCounts>, final: Option<FinalFigures>,
                               maximumRepairRounds: int, actualRounds: int) {
    maximumRepairRounds > 0 && counts.Some? &&
    var c := counts.value;
    || final.None?
    || final.value.repairRounds != c.repair || final.value.optimizationRounds != c.optimization
    || c.optimizationRepair > c.optimization * maximumRepairRounds
    || c.repair + c.optimization + c.optimizationRepair != actualRounds
  }

  /** The part of the test that applies when repair rounds are budgeted. */
  predicate BadDynamicCount(counts: Option<PhaseCounts>, final: Option<FinalFigures>, roundsPerTask: int,
                            maximumRepairRounds: int, actualRounds: int) {
    || actualRounds < 1
    || actualRounds > MaximumPhysicalRounds(roundsPerTask, maximumRepairRounds)
    || PhaseCountMismatch(counts, final, maximumRepairRounds, actualRounds)
    || final.None?
    || final.value.repairRounds < 1 || final.value.repairRounds > maximumRepairRounds
    || final.value.optimizationRounds < 0 || final.value.optimizationRounds > roundsPerTask
    || (final.value.status == REPAIR_EXHAUSTED
        && (final.value.repairRounds != maximumRepairRounds || final.value.optimizationRounds != 0))
    || (final.value.status != REPAIR_EXHAUSTED && final.value.terminationReason == BUDGET_COMPLETED
        && final.value.optimizationRounds != roundsPerTask)
    || (final.value.status != REPAIR_EXHAUSTED && final.value.optimizationRounds < roundsPerTask
        && final.value.terminationReason != HOST_DISPATCH_LIMITED)
  }

  /** The test on the database rows. */
  predicate InvalidDurableCount(currentRound: int, durableRounds: int, artifactRounds: int,
                                counts: Option<PhaseCounts>, final: Option<FinalFigures>,
                                roundsPerTask: int, maximumRepairRounds: int) {
    || currentRound != durableRounds
    || artifactRounds != durableRounds
    || (maximumRepairRounds == 0 && durableRounds != roundsPerTask)
    || (maximumRepairRounds > 0
        && BadDynamicCount(counts, final, roundsPerTask, maximumRepairRounds, durableRounds))
  }

  /** The test on the artifact directories. */
  predicate InvalidArtifactCount(artifactRounds: int, counts: Option<PhaseCounts>, final: Option<FinalFigures>,
                                 roundsPerTask: int, maximumRepairRounds: int) {
    || (maximumRepairRounds == 0 && artifactRounds != roundsPerTask)
    || (maximumRepairRounds > 0
        && BadDynamicCount(counts, final, roundsPerTask, maximumRepairRounds, artifactRounds))
  }

  /** What the controller records at the end of a run of `rounds` rounds. */
  function Recorded(ready: seq<bool>, rounds: nat, status: string): FinalFigures
    requires rounds <= |ready| + 1
  {
    FinalFigures(Count(Plans(ready, rounds), Repair), Count(Plans(ready, rounds), Optimization),
                 status, BUDGET_COMPLETED)
  }

  /** Both tests accept every full-length run the controller records exactly when
      no repair rounds are configured: a positive budget asks for as many
      optimization rounds as there are rounds, but the first round repairs. */
  lemma VerifierAcceptsIffNoRepairBudget(ready: seq<bool>, rounds: nat, status: string, maximumRepairRounds: nat)
    requires 1 <= rounds <= |ready| + 1 && status != REPAIR_EXHAUSTED
    ensures var counts := Some(Tally(Plans(ready, rounds)));
            var final := Some(Recorded(ready, rounds, status));
            && (!InvalidDurableCount(rounds, rounds, rounds, counts, final, rounds, maximumRepairRounds)
                <==> maximumRepairRounds == 0)
            && (!InvalidArtifactCount(rounds, counts, final, rounds, maximumRepairRounds)
                <==> maximumRepairRounds == 0)
  {
    FirstRoundRepairs(ready, rounds);
  }
}
