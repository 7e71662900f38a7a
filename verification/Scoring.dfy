/** Candidate scores and the noise-aware online comparison against the
    incumbent public BEST.  Metrics are real numbers. */
module Scoring {
  import opened Wrappers

  /** A candidate's identity embeds its round and the digest of its source. */
  datatype CandidateId = CandidateId(round: int, source: string)

  datatype CandidateScore = CandidateScore(
    candidateId: CandidateId, roundNumber: int,
    compilePassed: bool, correctnessPassed: bool, antiBypassPassed: bool,
    hiddenCorrectnessPassed: Option<bool>,
    minimumSpeedup: Option<real>, geomeanSpeedup: Option<real>,
    kernelCoverage: Option<real>, stabilityCv: Option<real>)
  {
    /** What the constructor enforces. */
    predicate Valid() {
      && roundNumber >= 1
      && (minimumSpeedup.Some? ==> minimumSpeedup.value > 0.0)
      && (geomeanSpeedup.Some? ==> geomeanSpeedup.value > 0.0)
      && (kernelCoverage.Some? ==> 0.0 <= kernelCoverage.value <= 1.0)
      && (stabilityCv.Some? ==> stabilityCv.value >= 0.0)
    }

    predicate IsPubliclyValid() {
      compilePassed && correctnessPassed && minimumSpeedup.Some? && geomeanSpeedup.Some?
    }

    predicate IsFinallyValid() {
      IsPubliclyValid() && hiddenCorrectnessPassed == Some(true)
    }
  }

  datatype Decision = Invalid | InitialBest | NewBest | Tie | Regression {
    predicate Selects() { InitialBest? || NewBest? }
  }

  datatype Comparison = Comparison(
    decision: Decision, tolerance: real, geomeanChange: Option<real>, minimumChange: Option<real>)

  datatype ScoringError = InvalidTieFloor | InvalidIncumbent

  const PERFORMANCE_TIE_FLOOR: real := 0.01

  function Max(a: real, b: real): real {
    if a >= b then a else b
  }

  function Geomean(s: CandidateScore): real {
    OrZero(s.geomeanSpeedup)
  }

  function Minimum(s: CandidateScore): real {
    OrZero(s.minimumSpeedup)
  }

  function OrZero(value: Option<real>): real {
    if value.Some? then value.value else 0.0
  }

  /** The decision taken on two relative changes and a noise tolerance. */
  function Classify(geomeanChange: real, minimumChange: real, tolerance: real): Decision {
    if geomeanChange > tolerance && minimumChange >= -tolerance then NewBest
    else if geomeanChange < -tolerance || minimumChange < -tolerance then Regression
    else Tie
  }

  function Tolerance(candidate: CandidateScore, incumbent: CandidateScore, tieFloor: real): real {
    Max(tieFloor, Max(OrZero(candidate.stabilityCv), OrZero(incumbent.stabilityCv)))
  }

  function ComparePublicCandidate(candidate: CandidateScore, incumbent: Option<CandidateScore>, tieFloor: real)
    : Result<Comparison, ScoringError>
    requires candidate.Valid() && (incumbent.Some? ==> incumbent.value.Valid())
  {
    if tieFloor < 0.0 then Err(InvalidTieFloor)
    else if !candidate.IsPubliclyValid() then Ok(Comparison(Invalid, tieFloor, None, None))
    else if incumbent.None? then Ok(Comparison(InitialBest, tieFloor, None, None))
    else if !incumbent.value.IsPubliclyValid() then Err(InvalidIncumbent)
    else
      var best := incumbent.value;
      var tolerance := Tolerance(candidate, best, tieFloor);
      var geomeanChange := candidate.geomeanSpeedup.value / best.geomeanSpeedup.value - 1.0;
      var minimumChange := candidate.minimumSpeedup.value / best.minimumSpeedup.value - 1.0;
      Ok(Comparison(Classify(geomeanChange, minimumChange, tolerance), tolerance,
                    Some(geomeanChange), Some(minimumChange)))
  }

  /** The decision with the default floor; the incumbent of an online run is
      always publicly valid. */
  function Decide(candidate: CandidateScore, incumbent: Option<CandidateScore>): Decision
    requires candidate.Valid() && (incumbent.Some? ==> incumbent.value.Valid() && incumbent.value.IsPubliclyValid())
  {
    ComparePublicCandidate(candidate, incumbent, PERFORMANCE_TIE_FLOOR).value.decision
  }

  ghost predicate AllValid(scores: seq<CandidateScore>) {
    forall s | s in scores :: s.Valid()
  }

  /** The successive BEST candidates of an online run, oldest first. */
  function Bests(scores: seq<CandidateScore>): (bests: seq<CandidateScore>)
    requires AllValid(scores)
    ensures forall b | b in bests :: b in scores && b.Valid() && b.IsPubliclyValid()
    decreases |scores|
  {
    if scores == [] then []
    else
      var front, last := scores[..|scores| - 1], scores[|scores| - 1];
      var earlier := Bests(front);
      if Decide(last, Incumbent(earlier)).Selects() then earlier + [last] else earlier
  }

  function Incumbent(bests: seq<CandidateScore>): Option<CandidateScore> {
    if bests == [] then None else Some(bests[|bests| - 1])
  }

  /** The loop that replays online decisions over stored scores. */
  method FoldOnlineBest(scores: seq<CandidateScore>) returns (best: Option<CandidateScore>)
    requires AllValid(scores)
    ensures best == Incumbent(Bests(scores))
  {
    best := None;
    for i := 0 to |scores|
      invariant best == Incumbent(Bests(scores[..i]))
    {
      assert scores[..i + 1][..i] == scores[..i];
      if Decide(scores[i], best).Selects() {
        best := Some(scores[i]);
      }
    }
    assert scores[..|scores|] == scores;
  }

  // ---------- what one NEW_BEST is worth ----------

  lemma RatioExceeds(candidate: real, best: real, bound: real)
    requires best > 0.0 && candidate / best - 1.0 > bound
    ensures candidate > best * (1.0 + bound)
  {
    var ratio := candidate / best;
    assert ratio * best == candidate;
    PositiveProduct(ratio - (1.0 + bound), best);
  }

  lemma PositiveProduct(a: real, b: real)
    requires a > 0.0 && b > 0.0
    ensures a * b > 0.0
  {}

  lemma RatioAtLeast(candidate: real, best: real, bound: real)
    requires best > 0.0 && candidate / best - 1.0 >= -bound
    ensures candidate >= best * (1.0 - bound)
  {
    var ratio := candidate / best;
    assert ratio * best == candidate;
    ScaleUp(ratio, 1.0 - bound, best);
  }

  lemma NewBestImproves(candidate: CandidateScore, best: CandidateScore)
    requires candidate.Valid() && best.Valid() && best.IsPubliclyValid()
    requires Decide(candidate, Some(best)).NewBest?
    ensures candidate.IsPubliclyValid()
    ensures Geomean(candidate) > Geomean(best) * (1.0 + PERFORMANCE_TIE_FLOOR)
    ensures Geomean(candidate) > Geomean(best)
    ensures Minimum(candidate)
         >= Minimum(best) * (1.0 - Tolerance(candidate, best, PERFORMANCE_TIE_FLOOR))
  {
    var tolerance := Tolerance(candidate, best, PERFORMANCE_TIE_FLOOR);
    var g, b := Geomean(candidate), Geomean(best);
    RatioExceeds(g, b, PERFORMANCE_TIE_FLOOR);
    assert b * (1.0 + PERFORMANCE_TIE_FLOOR) == b + b * PERFORMANCE_TIE_FLOOR;
    RatioAtLeast(Minimum(candidate), Minimum(best), tolerance);
  }

  // ---------- chains of NEW_BEST decisions ----------

  ghost predicate IsNewBestChain(chain: seq<CandidateScore>) {
    && (forall i | 0 <= i < |chain| :: chain[i].Valid() && chain[i].IsPubliclyValid())
    && (forall i | 0 < i < |chain| :: Decide(chain[i], Some(chain[i - 1])).NewBest?)
  }

  function Power(x: real, k: nat): real {
    if k == 0 then 1.0 else x * Power(x, k - 1)
  }

  /** The product of (1 - tolerance) over the steps of a chain. */
  function Slack(chain: seq<CandidateScore>): real
    decreases |chain|
  {
    if |chain| <= 1 then 1.0
    else Slack(chain[..|chain| - 1])
         * (1.0 - Tolerance(chain[|chain| - 1], chain[|chain| - 2], PERFORMANCE_TIE_FLOOR))
  }

  ghost predicate TolerancesBelowOne(chain: seq<CandidateScore>) {
    forall i | 0 < i < |chain| :: Tolerance(chain[i], chain[i - 1], PERFORMANCE_TIE_FLOOR) < 1.0
  }

  lemma ScaleUp(a: real, b: real, c: real)
    requires a >= b && c >= 0.0
    ensures a * c >= b * c
  {}

  lemma ChainWithoutLast(chain: seq<CandidateScore>)
    requires IsNewBestChain(chain) && |chain| > 1
    ensures IsNewBestChain(chain[..|chain| - 1])
    ensures Decide(chain[|chain| - 1], Some(chain[|chain| - 2])).NewBest?
    ensures chain[|chain| - 1].Valid() && chain[|chain| - 2].Valid() && chain[|chain| - 2].IsPubliclyValid()
    ensures TolerancesBelowOne(chain) ==> TolerancesBelowOne(chain[..|chain| - 1])
    ensures TolerancesBelowOne(chain) ==> Tolerance(chain[|chain| - 1], chain[|chain| - 2], PERFORMANCE_TIE_FLOOR) < 1.0
  {
    var front := chain[..|chain| - 1];
    forall i | 0 < i < |front| ensures Decide(front[i], Some(front[i - 1])).NewBest? {
      assert front[i] == chain[i] && front[i - 1] == chain[i - 1];
    }
    if TolerancesBelowOne(chain) {
      forall i | 0 < i < |front| ensures Tolerance(front[i], front[i - 1], PERFORMANCE_TIE_FLOOR) < 1.0 {
        assert front[i] == chain[i] && front[i - 1] == chain[i - 1];
      }
    }
  }

  /** k NEW_BEST decisions in a row raise the geometric mean by at least 1% each. */
  lemma {:induction false} GainsCompound(chain: seq<CandidateScore>)
    requires IsNewBestChain(chain) && chain != []
    ensures Geomean(chain[|chain| - 1])
         >= Geomean(chain[0]) * Power(1.0 + PERFORMANCE_TIE_FLOOR, |chain| - 1)
    ensures |chain| > 1 ==>
              Geomean(chain[|chain| - 1]) > Geomean(chain[0]) * Power(1.0 + PERFORMANCE_TIE_FLOOR, |chain| - 1)
    decreases |chain|
  {
    hide Decide, Tolerance, IsNewBestChain, TolerancesBelowOne, Geomean, Minimum;
    if |chain| > 1 {
      ChainWithoutLast(chain);
      GainsCompound(chain[..|chain| - 1]);
      NewBestImproves(chain[|chain| - 1], chain[|chain| - 2]);
      Compound(Geomean(chain[0]), Geomean(chain[|chain| - 2]), 1.0 + PERFORMANCE_TIE_FLOOR, |chain| - 2);
    }
  }

  lemma Compound(start: real, before: real, growth: real, k: nat)
    requires before >= start * Power(growth, k) && growth >= 0.0
    ensures before * growth >= start * Power(growth, k + 1)
  {
    var power := Power(growth, k);
    ScaleUp(before, start * power, growth);
    assert start * power * growth == start * (growth * power);
  }

  lemma {:induction false} SlackIsPositive(chain: seq<CandidateScore>)
    requires IsNewBestChain(chain) && chain != [] && TolerancesBelowOne(chain)
    ensures Slack(chain) > 0.0
    decreases |chain|
  {
    hide Decide, IsNewBestChain, Tolerance, TolerancesBelowOne;
    if |chain| > 1 {
      ChainWithoutLast(chain);
      var front := Slack(chain[..|chain| - 1]);
      var keep := 1.0 - Tolerance(chain[|chain| - 1], chain[|chain| - 2], PERFORMANCE_TIE_FLOOR);
      SlackIsPositive(chain[..|chain| - 1]);
      PositiveProduct(front, keep);
      assert Slack(chain) == front * keep;
    }
  }

  lemma ChainStartsPositive(chain: seq<CandidateScore>)
    requires IsNewBestChain(chain) && chain != []
    ensures Minimum(chain[0]) > 0.0
  {
  }

  /** The worst-shape speedup never falls below the product of the noise
      allowances, which is positive, while every allowance is below one. */
  lemma {:induction false} WorstCaseIsBounded(chain: seq<CandidateScore>)
    requires IsNewBestChain(chain) && chain != [] && TolerancesBelowOne(chain)
    ensures Minimum(chain[|chain| - 1]) >= Minimum(chain[0]) * Slack(chain)
    ensures Slack(chain) > 0.0 && Minimum(chain[0]) * Slack(chain) > 0.0
    decreases |chain|
  {
    hide Decide, Tolerance, IsNewBestChain, TolerancesBelowOne, Geomean, Minimum;
    SlackIsPositive(chain);
    ChainStartsPositive(chain);
    PositiveProduct(Minimum(chain[0]), Slack(chain));
    if |chain| > 1 {
      ChainWithoutLast(chain);
      var front, last, before := chain[..|chain| - 1], chain[|chain| - 1], chain[|chain| - 2];
      WorstCaseIsBounded(front);
      NewBestImproves(last, before);
      Allow(Minimum(before), Minimum(chain[0]), Slack(front), 1.0 - Tolerance(last, before, PERFORMANCE_TIE_FLOOR));
    }
  }

  lemma Allow(before: real, start: real, slack: real, keep: real)
    requires before >= start * slack && keep > 0.0
    ensures before * keep >= start * (slack * keep)
  {
    ScaleUp(before, start * slack, keep);
  }

  lemma {:induction false} ChainClimbs(chain: seq<CandidateScore>)
    requires IsNewBestChain(chain) && |chain| > 1
    ensures Geomean(chain[|chain| - 1]) > Geomean(chain[0])
    decreases |chain|
  {
    ChainWithoutLast(chain);
    NewBestImproves(chain[|chain| - 1], chain[|chain| - 2]);
    if |chain| > 2 {
      ChainClimbs(chain[..|chain| - 1]);
    }
  }

  /** NEW_BEST has no cycles: the start of a chain never beats its end. */
  lemma NewBestIsAcyclic(chain: seq<CandidateScore>)
    requires IsNewBestChain(chain) && chain != []
    ensures !Decide(chain[0], Some(chain[|chain| - 1])).NewBest?
  {
    if Decide(chain[0], Some(chain[|chain| - 1])).NewBest? {
      NewBestImproves(chain[0], chain[|chain| - 1]);
      if |chain| > 1 {
        ChainClimbs(chain);
      }
    }
  }

  // ---------- whole online runs ----------

  lemma {:induction false} BestsFormChain(scores: seq<CandidateScore>)
    requires AllValid(scores)
    ensures IsNewBestChain(Bests(scores))
    decreases |scores|
  {
    if scores != [] {
      BestsFormChain(scores[..|scores| - 1]);
    }
  }

  /** Along any online run with the default floor: k changes of BEST after the
      first raise its geometric mean above initial * (101/100)^k, and its
      minimum speedup stays above initial times the product of (1 - tolerance). */
  lemma OnlineRunImproves(scores: seq<CandidateScore>)
    requires AllValid(scores) && |Bests(scores)| > 1
    ensures var bests := Bests(scores);
            var first, last := bests[0], bests[|bests| - 1];
            && Geomean(last)
               > Geomean(first) * Power(1.0 + PERFORMANCE_TIE_FLOOR, |bests| - 1)
            && (TolerancesBelowOne(bests) ==>
                  Minimum(last) >= Minimum(first) * Slack(bests) > 0.0)
  {
    hide Decide, Tolerance, IsNewBestChain, TolerancesBelowOne, Geomean, Minimum, Slack, Power;
    var bests := Bests(scores);
    BestsFormChain(scores);
    GainsCompound(bests);
    if TolerancesBelowOne(bests) {
      WorstCaseIsBounded(bests);
    }
  }

  /** No candidate considered after the final BEST is NEW_BEST against it; the
      run has a BEST as soon as one candidate is publicly valid. */
  lemma {:induction false} NothingLaterBeatsFinalBest(scores: seq<CandidateScore>, k: nat)
    requires AllValid(scores) && k <= |scores|
    requires Bests(scores[..k]) == Bests(scores)
    ensures Bests(scores) == [] ==> forall i | 0 <= i < |scores| :: !scores[i].IsPubliclyValid()
    ensures Bests(scores) != [] ==>
              forall i | k <= i < |scores| :: !Decide(scores[i], Incumbent(Bests(scores))).NewBest?
    decreases |scores|
  {
    if scores != [] {
      var front, last := scores[..|scores| - 1], scores[|scores| - 1];
      assert scores == front + [last];
      if k < |scores| {
        BestsGrow(scores, k);
        assert front[..k] == scores[..k];
        assert Bests(front) == Bests(scores);
        NothingLaterBeatsFinalBest(front, k);
      } else if Bests(scores) == [] {
        assert Bests(front) == [];
        assert front[..|front|] == front;
        NothingLaterBeatsFinalBest(front, |front|);
      }
    }
  }

  lemma {:induction false} BestsGrow(scores: seq<CandidateScore>, k: nat)
    requires AllValid(scores) && k < |scores|
    ensures |Bests(scores[..k])| <= |Bests(scores[..|scores| - 1])| <= |Bests(scores)|
    ensures |Bests(scores[..|scores| - 1])| == |Bests(scores)| ==> Bests(scores[..|scores| - 1]) == Bests(scores)
    decreases |scores|
  {
    var front := scores[..|scores| - 1];
    if k < |front| {
      assert front[..k] == scores[..k];
      BestsGrow(front, k);
    } else {
      assert scores[..k] == front;
    }
  }
}
