/** What a crash between the selection of a new BEST and its feedback changes: the
    feedback is then written against an incumbent replayed from the scores alone. */
module DecisionRecovery {
  import opened Wrappers
  import opened JsonValue
  import opened StateMachine
  import opened Scoring
  import opened Trajectory
  import opened ModelResponses
  import opened StateStore
  import opened ControllerModel
  import opened ControllerSteps
  import opened ControllerTask
  import opened ControllerFacts
  import opened ControllerTheorems

  // ---------- the records of a run ----------

  /** What the invariant asks of the record behind the given ones. */
  ghost predicate IsNextRecord(before: seq<Record>, r: Record) {
    var n, score := |before| + 1, r.evaluation.report.score;
    && Readable(n, r.response)
    && score.candidateId == CandidateId(n, CodeOf(n, r.response)) && score.roundNumber == n
    && r.evaluation.plan == PlanFor(before)
    && FeedbackOk(before, r.evaluation.report, r.feedback)
  }

  ghost predicate AreRecords(past: seq<Record>) {
    forall i | 0 <= i < |past| :: IsNextRecord(past[..i], past[i])
  }

  lemma PastAreRecords(cfg: Config, t: Tables, files: Files, past: seq<Record>)
    requires Inv(cfg, t, files, past)
    ensures AreRecords(past)
  {
    hide Inv, FeedbackOk, PlanFor, SameUpToHidden, Readable, CodeOf;
    forall i | 0 <= i < |past| ensures IsNextRecord(past[..i], past[i]) {
      RecordedScore(cfg, t, files, past, i + 1);
      RecordedResponse(cfg, t, files, past, i + 1);
    }
  }

  lemma RecordedResponse(cfg: Config, t: Tables, files: Files, past: seq<Record>, n: nat)
    requires Inv(cfg, t, files, past) && 1 <= n <= |past|
    ensures Readable(n, past[n - 1].response)
    ensures FilesOf(files, n).candidate == Some(CodeOf(n, past[n - 1].response))
  {
    hide Inv, FeedbackOk, PlanFor, Readable, CodeOf, PromptFor;
    FinishedRound(cfg, t, files, past, n);
  }

  /** Scores carry the number of their round. */
  ghost predicate Numbered(past: seq<Record>) {
    forall i | 0 <= i < |past| :: past[i].evaluation.report.score.candidateId.round == i + 1
  }

  lemma RecordsAreNumbered(past: seq<Record>)
    requires AreRecords(past)
    ensures Numbered(past)
  {
    hide Readable, CodeOf, PlanFor, FeedbackOk;
    forall i | 0 <= i < |past| ensures past[i].evaluation.report.score.candidateId.round == i + 1 {
      assert IsNextRecord(past[..i], past[i]);
    }
  }

  // ---------- the decision ----------

  /** A usable paired measurement of the round. */
  predicate UsesPaired(o: Outcome) {
    o.benchmark.Some? && o.paired.Some? && Positive(o.paired.value.geomean) && Positive(o.paired.value.minimum)
  }

  /** Measured in pairs, a candidate is not compared by the incumbent's numbers. */
  lemma PairedStep(report: Report, a: Option<CandidateScore>, b: Option<CandidateScore>)
    requires Eligible(a) && Eligible(b) && (a.Some? <==> b.Some?) && UsesPaired(report.outcome)
    ensures OnlineComparison(report, a) == OnlineComparison(report, b)
  {
  }

  lemma UnpairedStep(report: Report, best: Option<CandidateScore>)
    requires Eligible(best) && !UsesPaired(report.outcome)
    ensures OnlineComparison(report, best) == ComparePublicCandidate(report.score, best, PERFORMANCE_TIE_FLOOR).value
  {
  }

  /** When the round was measured in pairs, as the worker does behind the first
      incumbent, the recovered feedback has the same decision and the same BEST:
      nothing but the incumbent before the round can differ. */
  lemma PairedDecisionIsRecovered(before: seq<Record>, report: Report)
    requires Selected(before, report) && UsesPaired(report.outcome)
    ensures RecoveredFeedback(before, report)
         == DirectFeedback(before, report).(bestBefore := IdOf(UnpairedBest(before)))
  {
    hide OnlineComparison, UnpairedBest, OnlineBest, UsesPaired;
    SomeBestOrNone(before);
    PairedStep(report, OnlineBest(before), UnpairedBest(before));
  }

  function ScoreComparison(report: Report, best: Option<CandidateScore>): Comparison
    requires Eligible(best)
  {
    ComparePublicCandidate(report.score, best, PERFORMANCE_TIE_FLOOR).value
  }

  /** The decision is the uninterrupted one if and only if the round was measured in
      pairs or the score compares alike to both incumbents. */
  lemma DecisionRecoveryIsExact(before: seq<Record>, report: Report)
    requires Selected(before, report)
    ensures var recovered, direct := RecoveredFeedback(before, report), DirectFeedback(before, report);
            && (recovered.comparison == direct.comparison
                <==> UsesPaired(report.outcome)
                     || ScoreComparison(report, UnpairedBest(before)) == ScoreComparison(report, OnlineBest(before)))
            && (recovered.comparison.decision == direct.comparison.decision
                <==> UsesPaired(report.outcome)
                     || Decide(report.score, UnpairedBest(before)).Selects())
            && recovered.bestAfter == direct.bestAfter
  {
    hide OnlineComparison, UnpairedBest, OnlineBest, UsesPaired;
    SomeBestOrNone(before);
    if UsesPaired(report.outcome) {
      PairedStep(report, OnlineBest(before), UnpairedBest(before));
    } else {
      UnpairedStep(report, OnlineBest(before));
      UnpairedStep(report, UnpairedBest(before));
    }
  }

  // ---------- the incumbent before the round ----------

  predicate SelectsOnline(past: seq<Record>, i: nat)
    requires i < |past|
  {
    Selected(past[..i], past[i].evaluation.report)
  }

  /** The replay over scores selects the candidate of the round. */
  predicate SelectsUnpaired(past: seq<Record>, i: nat)
    requires i < |past|
  {
    Decide(past[i].evaluation.report.score, UnpairedBest(past[..i])).Selects()
  }

  predicate Parts(past: seq<Record>, i: nat)
    requires i < |past|
  {
    SelectsOnline(past, i) != SelectsUnpaired(past, i)
  }

  predicate Rejoins(past: seq<Record>, i: nat)
    requires i < |past|
  {
    SelectsOnline(past, i) && SelectsUnpaired(past, i)
  }

  /** Every round on which the two replays part has a later one both select. */
  ghost predicate AllRejoined(past: seq<Record>) {
    forall i: nat | i < |past| && Parts(past, i) :: exists j: nat :: i < j < |past| && Rejoins(past, j)
  }

  lemma PrefixRounds(front: seq<Record>, last: Record, i: nat)
    requires i < |front|
    ensures Parts(front + [last], i) == Parts(front, i)
    ensures Rejoins(front + [last], i) == Rejoins(front, i)
  {
    hide UnpairedBest, Selected;
    assert (front + [last])[..i] == front[..i];
  }

  lemma UnpairedNext(front: seq<Record>, last: Record)
    ensures var score := last.evaluation.report.score;
            UnpairedBest(front + [last])
            == if Decide(score, UnpairedBest(front)).Selects() then Some(score) else UnpairedBest(front)
  {
    hide Decide;
    ScoresPrefix(front + [last]);
    assert (front + [last])[..|front|] == front;
  }

  lemma UnpairedIsRecorded(past: seq<Record>)
    requires UnpairedBest(past).Some?
    ensures exists i :: 0 <= i < |past| && past[i].evaluation.report.score == UnpairedBest(past).value
  {
    assert UnpairedBest(past).value in Scores(past);
  }

  lemma OlderBest(past: seq<Record>)
    requires Numbered(past)
    ensures OnlineBest(past).Some? ==> OnlineBest(past).value.candidateId.round <= |past|
    ensures UnpairedBest(past).Some? ==> UnpairedBest(past).value.candidateId.round <= |past|
  {
    hide OnlineBest, UnpairedBest;
    BestIsRecorded(past);
    if UnpairedBest(past).Some? {
      UnpairedIsRecorded(past);
    }
  }

  /** The recovered incumbent before the round is the uninterrupted one if and only
      if every round the two replays parted on has a later one both select. */
  lemma {:induction false} BestBeforeRecoveryIsExact(past: seq<Record>)
    requires Numbered(past)
    ensures IdOf(UnpairedBest(past)) == IdOf(OnlineBest(past)) <==> AllRejoined(past)
    decreases |past|
  {
    hide UnpairedBest, OnlineBest, Decide, OnlineComparison;
    if past == [] {
      NothingReplayed();
    } else {
      var front, last, m := past[..|past| - 1], past[|past| - 1], |past| - 1;
      assert past == front + [last] && past[..m] == front;
      BestBeforeRecoveryIsExact(front);
      OlderBest(front);
      NextBestOf(front, last);
      UnpairedNext(front, last);
      forall i: nat | i < m ensures Parts(past, i) == Parts(front, i) && Rejoins(past, i) == Rejoins(front, i) {
        PrefixRounds(front, last, i);
      }
      RejoinedNext(past);
    }
  }

  lemma SameIdSameBest(before: seq<Record>)
    requires Numbered(before) && IdOf(UnpairedBest(before)) == IdOf(OnlineBest(before))
    ensures UnpairedBest(before) == OnlineBest(before)
  {
    hide OnlineBest, UnpairedBest;
    BestIsRecorded(before);
    if OnlineBest(before).Some? {
      UnpairedIsRecorded(before);
      var i :| 0 <= i < |before| && before[i].evaluation.report.score == OnlineBest(before).value;
      var j :| 0 <= j < |before| && before[j].evaluation.report.score == UnpairedBest(before).value;
      assert i == j;
    }
  }

  /** So is the whole feedback written after the crash. */
  lemma FeedbackRecoveryIsExact(before: seq<Record>, report: Report)
    requires Numbered(before) && Selected(before, report)
    ensures RecoveredFeedback(before, report) == DirectFeedback(before, report) <==> AllRejoined(before)
  {
    hide OnlineComparison, UnpairedBest, OnlineBest, AllRejoined;
    BestBeforeRecoveryIsExact(before);
    if IdOf(UnpairedBest(before)) == IdOf(OnlineBest(before)) {
      SameIdSameBest(before);
    }
  }

  /** In every reachable state: a round whose committed evaluation is selected, if
      it loses its feedback to a crash, gets the uninterrupted one under the same
      condition. */
  lemma ReachableRecoveryIsExact(cfg: Config, t: Tables, files: Files, past: seq<Record>)
    requires Inv(cfg, t, files, past)
    requires FilesOf(files, |past| + 1).evaluation.Some?
    requires Selected(past, FilesOf(files, |past| + 1).evaluation.value.report)
    ensures var report := FilesOf(files, |past| + 1).evaluation.value.report;
            RecoveredFeedback(past, report) == DirectFeedback(past, report) <==> AllRejoined(past)
  {
    hide Inv, OnlineComparison, UnpairedBest, OnlineBest, AllRejoined, RecoveredFeedback, DirectFeedback;
    PastAreRecords(cfg, t, files, past);
    RecordsAreNumbered(past);
    FeedbackRecoveryIsExact(past, FilesOf(files, |past| + 1).evaluation.value.report);
  }

  lemma RejoinedNext(past: seq<Record>)
    requires past != []
    requires var front := past[..|past| - 1];
             forall i: nat | i < |front| :: Parts(past, i) == Parts(front, i) && Rejoins(past, i) == Rejoins(front, i)
    ensures AllRejoined(past)
            <==> Rejoins(past, |past| - 1) || (!Parts(past, |past| - 1) && AllRejoined(past[..|past| - 1]))
  {
    hide Parts, Rejoins;
    var front, m := past[..|past| - 1], |past| - 1;
    if Rejoins(past, m) {
      PartsOrRejoins(past, m);
    } else if !Parts(past, m) {
      forall i: nat | i < m && Parts(past, i)
        ensures (exists j: nat :: i < j < |past| && Rejoins(past, j))
                <==> (exists j: nat :: i < j < m && Rejoins(front, j))
      {
      }
    }
  }

  lemma PartsOrRejoins(past: seq<Record>, i: nat)
    requires i < |past|
    ensures !(Parts(past, i) && Rejoins(past, i))
  {
  }

  lemma NothingReplayed()
    ensures UnpairedBest([]).None? && OnlineBest([]).None?
  {
  }

  /** The first round they part on was measured in pairs. */
  lemma FirstPartingIsPaired(past: seq<Record>, i: nat)
    requires i < |past| && Parts(past, i) && forall j: nat | j < i :: !Parts(past, j)
    ensures UnpairedBest(past[..i]) == OnlineBest(past[..i])
    ensures UsesPaired(past[i].evaluation.report.outcome)
  {
    hide UnpairedBest, OnlineBest, OnlineComparison, UsesPaired;
    TogetherUntil(past, i);
    if !UsesPaired(past[i].evaluation.report.outcome) {
      UnpairedStep(past[i].evaluation.report, OnlineBest(past[..i]));
    }
  }

  lemma {:induction false} TogetherUntil(past: seq<Record>, m: nat)
    requires m <= |past| && forall j: nat | j < m :: !Parts(past, j)
    ensures UnpairedBest(past[..m]) == OnlineBest(past[..m])
  {
    hide UnpairedBest, OnlineBest, OnlineComparison, Decide;
    if m == 0 {
      NothingReplayed();
      assert past[..0] == [];
    } else {
      TogetherUntil(past, m - 1);
      assert !Parts(past, m - 1);
      assert past[..m] == past[..m - 1] + [past[m - 1]];
      UnpairedNext(past[..m - 1], past[m - 1]);
      NextBestOf(past[..m - 1], past[m - 1]);
    }
  }

  // ---------- runs without paired measurements ----------

  /** Without paired measurements the two replays agree, so a crash anywhere
      yields the same incumbent, decision and feedback. */
  lemma {:induction false} UnpairedRunsAgree(past: seq<Record>)
    requires forall r | r in past :: !UsesPaired(r.evaluation.report.outcome)
    ensures UnpairedBest(past) == OnlineBest(past)
    decreases |past|
  {
    if past != [] {
      var front, last := past[..|past| - 1], past[|past| - 1];
      assert forall r | r in front :: r in past;
      UnpairedRunsAgree(front);
      ScoresPrefix(past);
      UnpairedStep(last.evaluation.report, OnlineBest(front));
    }
  }

  /** Without paired measurements BEST is the fold of the score comparison over
      the committed scores in round order, with or without the round in flight. */
  lemma BestIsFoldOfScores(cfg: Config, t: Tables, files: Files, past: seq<Record>)
    requires Inv(cfg, t, files, past)
    requires forall r | r in past :: !UsesPaired(r.evaluation.report.outcome)
    requires FilesOf(files, |past| + 1).evaluation.Some? ==>
               !UsesPaired(FilesOf(files, |past| + 1).evaluation.value.report.outcome)
    ensures t.task.Some?
    ensures var scores := Scores(Committed(past, files));
            || t.task.value.best == IdOf(Incumbent(Bests(scores)))
            || (Committed(past, files) == past && FilesOf(files, |past| + 1).evaluation.Some?
                && var score := FilesOf(files, |past| + 1).evaluation.value.report.score;
                   AllValid(scores + [score])
                   && t.task.value.best == IdOf(Incumbent(Bests(scores + [score]))))
  {
    hide Inv, OnlineBest, OnlineComparison, UsesPaired, Bests;
    var committed := Committed(past, files);
    UnpairedRunsAgree(committed);
    BestIsLastFeedbackOrInFlight(cfg, t, files, past);
    LastFeedbackNamesBest(cfg, t, files, past);
    if t.task.value.best != IdOf(OnlineBest(committed)) {
      var report := FilesOf(files, |past| + 1).evaluation.value.report;
      UnpairedStep(report, OnlineBest(past));
      BestsNext(Scores(past), report.score);
    }
  }

  lemma BestsNext(scores: seq<CandidateScore>, score: Score)
    requires AllValid(scores)
    ensures AllValid(scores + [score])
    ensures Decide(score, Incumbent(Bests(scores))).Selects() ==>
              Incumbent(Bests(scores + [score])) == Some(score)
  {
    hide Decide;
    assert (scores + [score])[..|scores|] == scores;
  }

  /** Two runs that committed the same evaluations committed the same feedback,
      wherever either of them crashed, when nothing was measured in pairs. */
  lemma {:induction false} FeedbackIsDetermined(a: seq<Record>, b: seq<Record>)
    requires |a| == |b| && forall i | 0 <= i < |a| :: a[i].evaluation == b[i].evaluation
    requires forall r | r in a :: !UsesPaired(r.evaluation.report.outcome)
    requires forall i | 0 <= i < |a| :: FeedbackOk(a[..i], a[i].evaluation.report, a[i].feedback)
    requires forall i | 0 <= i < |b| :: FeedbackOk(b[..i], b[i].evaluation.report, b[i].feedback)
    ensures OnlineBest(a) == OnlineBest(b)
    ensures forall i | 0 <= i < |a| :: a[i].feedback == b[i].feedback
    decreases |a|
  {
    hide UnpairedBest, OnlineBest, OnlineComparison, FeedbackOk, UsesPaired, DirectFeedback, NextBest;
    if a == [] {
      assert a == b;
    } else {
      var m := |a| - 1;
      var x, y := a[..m], b[..m];
      forall i | 0 <= i < m
        ensures FeedbackOk(x[..i], x[i].evaluation.report, x[i].feedback)
        ensures FeedbackOk(y[..i], y[i].evaluation.report, y[i].feedback)
      {
        assert x[..i] == a[..i] && y[..i] == b[..i];
      }
      assert forall r | r in x :: r in a;
      FeedbackIsDetermined(x, y);
      forall i | 0 <= i < m ensures !UsesPaired(y[i].evaluation.report.outcome) {
        assert x[i] in a && x[i].evaluation == y[i].evaluation;
      }
      FeedbackIsDirect(x, a[m]);
      FeedbackIsDirect(y, b[m]);
      SameIncumbentSameFeedback(x, y, a[m].evaluation.report);
      assert a == x + [a[m]] && b == y + [b[m]];
      NextBestOf(x, a[m]);
      NextBestOf(y, b[m]);
      forall i | 0 <= i < |a| ensures a[i].feedback == b[i].feedback {
        if i < m {
          assert x[i].feedback == y[i].feedback;
        }
      }
    }
  }

  lemma FeedbackIsDirect(before: seq<Record>, r: Record)
    requires forall q | q in before :: !UsesPaired(q.evaluation.report.outcome)
    requires FeedbackOk(before, r.evaluation.report, r.feedback)
    ensures r.feedback == DirectFeedback(before, r.evaluation.report)
  {
    hide UnpairedBest, OnlineBest, OnlineComparison, UsesPaired;
    UnpairedRunsAgree(before);
  }

  lemma SameIncumbentSameFeedback(a: seq<Record>, b: seq<Record>, report: Report)
    requires OnlineBest(a) == OnlineBest(b)
    ensures DirectFeedback(a, report) == DirectFeedback(b, report)
  {
  }

  // ---------- runs that differ ----------

  const EXAMPLE_CODE := "# x.\n"

  function Example(n: int): ModelResponse {
    ModelResponse("candidate", n, [], [], [], [], EXAMPLE_CODE, None, None)
  }

  function ExampleResponse(n: int): map<string, Json> {
    Example(n).ToDict()
  }

  /** A passing round behind the given ones, run without a crash. */
  function ExampleRecord(before: seq<Record>, speedup: real, paired: Option<Paired>): Record
    requires speedup > 0.0
  {
    var n := |before| + 1;
    var score := CandidateScore(CandidateId(n, EXAMPLE_CODE), n, true, true, true, None, Some(speedup), Some(speedup), None, None);
    var passed := Some(Stage(true, Pass, false));
    var report := Report(Outcome(false, passed, passed, passed, passed, paired, None, None, None, false), score);
    Record(ExampleResponse(n), Evaluation(report, PlanFor(before)), DirectFeedback(before, report))
  }

  lemma ExampleIsReadable(n: int)
    requires n >= 1
    ensures ParsedResponse(n, ExampleResponse(n)) == Ok(Example(n))
    ensures Readable(n, ExampleResponse(n)) && CodeOf(n, ExampleResponse(n)) == EXAMPLE_CODE
  {
    hide CheckCode, StringList;
    var fields := ExampleResponse(n);
    PrintedFields(Example(n));
    FieldNamesDiffer();
    assert EXAMPLE_CODE[0] == '#' && EXAMPLE_CODE[4] == '\n' && EXAMPLE_CODE[3] == '.';
    CodeIsAccepted(EXAMPLE_CODE);
    assert "changes" in fields.Keys && "changes" !in LEGACY_V2_FIELDS && "changes" !in LEGACY_V1_FIELDS;
  }

  lemma ExampleIsRecord(before: seq<Record>, speedup: real, paired: Option<Paired>)
    requires speedup > 0.0
    ensures IsNextRecord(before, ExampleRecord(before, speedup, paired))
  {
    hide Readable, CodeOf, ExampleResponse, PlanFor, DirectFeedback;
    ExampleIsReadable(|before| + 1);
  }

  function FirstRound(): Record {
    ExampleRecord([], 1.0, None)
  }

  /** Half as fast again as the first, but in pairs only as fast: a tie. */
  function SecondRound(): Record {
    ExampleRecord([FirstRound()], 1.5, Some(Paired(Some(1.0), Some(1.0), None)))
  }

  function TieInPairs(): seq<Record> {
    [FirstRound(), SecondRound()]
  }

  lemma FirstIncumbent()
    ensures var best := Some(FirstRound().evaluation.report.score);
            OnlineBest([FirstRound()]) == best && UnpairedBest([FirstRound()]) == best
  {
    hide Readable, PlanFor, ExampleResponse;
    NothingReplayed();
    assert [FirstRound()] == [] + [FirstRound()];
    NextBestOf([], FirstRound());
    UnpairedNext([], FirstRound());
  }

  /** The replays part on the second round. */
  lemma SecondIncumbent()
    ensures OnlineBest(TieInPairs()) == Some(FirstRound().evaluation.report.score)
    ensures UnpairedBest(TieInPairs()) == Some(SecondRound().evaluation.report.score)
  {
    hide Readable, PlanFor, ExampleResponse, OnlineBest, UnpairedBest, DirectFeedback;
    FirstIncumbent();
    assert TieInPairs() == [FirstRound()] + [SecondRound()];
    NextBestOf([FirstRound()], SecondRound());
    UnpairedNext([FirstRound()], SecondRound());
  }

  lemma TieIsRun()
    ensures AreRecords(TieInPairs()) && NoRetry(TieInPairs())
    ensures UsesPaired(TieInPairs()[1].evaluation.report.outcome)
  {
    hide IsNextRecord, PlanFor, ExampleResponse, DirectFeedback;
    ExampleIsRecord([], 1.0, None);
    ExampleIsRecord([FirstRound()], 1.5, Some(Paired(Some(1.0), Some(1.0), None)));
    assert TieInPairs()[..0] == [] && TieInPairs()[..1] == [FirstRound()];
  }

  /** A run in which every round behind the first incumbent is measured in pairs:
      the recovered feedback of round 3 names another incumbent before it, and is
      otherwise the uninterrupted one. */
  lemma RecoveryCanMisreport()
    ensures exists before: seq<Record>, report: Report ::
              && AreRecords(before) && NoRetry(before) && Selected(before, report)
              && (forall i | 1 <= i < |before| :: UsesPaired(before[i].evaluation.report.outcome))
              && UsesPaired(report.outcome)
              && RecoveredFeedback(before, report).bestBefore != DirectFeedback(before, report).bestBefore
              && RecoveredFeedback(before, report).comparison == DirectFeedback(before, report).comparison
  {
    hide AreRecords, OnlineBest, UnpairedBest, PlanFor, ExampleResponse, DirectFeedback;
    TieIsRun();
    SecondIncumbent();
    var before := TieInPairs();
    var report := ExampleRecord(before, 1.2, Some(Paired(Some(1.2), Some(1.2), None))).evaluation.report;
    assert Selected(before, report);
    PairedDecisionIsRecovered(before, report);
    assert DirectFeedback(before, report).bestBefore == IdOf(OnlineBest(before)) by { DirectNames(before, report); }
  }

  lemma DirectNames(before: seq<Record>, report: Report)
    ensures DirectFeedback(before, report).bestBefore == IdOf(OnlineBest(before))
  {
    hide OnlineBest, OnlineComparison;
  }

  /** A backend that measures only some rounds in pairs can make it worse: here the
      recovered feedback reports a regression for the candidate it selects. */
  lemma MixedMeasurementsCanMisreport()
    ensures exists before: seq<Record>, report: Report ::
              && AreRecords(before) && NoRetry(before) && Selected(before, report)
              && !UsesPaired(report.outcome)
              && DirectFeedback(before, report).comparison.decision.NewBest?
              && RecoveredFeedback(before, report).comparison.decision.Regression?
              && RecoveredFeedback(before, report).bestAfter == Some(report.score.candidateId)
  {
    hide AreRecords, OnlineBest, UnpairedBest, PlanFor, ExampleResponse;
    TieIsRun();
    SecondIncumbent();
    var before := TieInPairs();
    var report := ExampleRecord(before, 1.2, None).evaluation.report;
    assert Selected(before, report);
  }
}
