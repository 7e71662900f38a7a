/** What the invariant of the controller means, in the words of its users.  The
    methods of Controller keep the invariant before and after every durable
    write, so these hold after any number of crashes and resumes. */
module ControllerTheorems {
  import opened Wrappers
  import opened JsonValue
  import opened StateMachine
  import opened Scoring
  import opened Trajectory
  import opened ModelResponses
  import opened StateStore
  import opened ControllerModel
  import opened ControllerSteps
  import opened ControllerTask
  import opened ControllerFacts

  // ---------- the selected BEST ----------

  function LastBestAfter(committed: seq<Record>): Option<CandidateId> {
    if committed == [] then None else committed[|committed| - 1].feedback.bestAfter
  }

  /** BEST is `best_after` of the last committed feedback, or the candidate
      of the single next round, scored and selected but without feedback yet. */
  lemma BestIsLastFeedbackOrInFlight(cfg: Config, t: Tables, files: Files, past: seq<Record>)
    requires Inv(cfg, t, files, past)
    ensures t.task.Some?
    ensures var reference := t.task.value.best;
            || reference == LastBestAfter(Committed(past, files))
            || (var v := View(t, files, |past| + 1);
                && Committed(past, files) == past && v.files.feedback.None?
                && v.score.Some? && v.files.evaluation.Some?
                && Selected(past, v.files.evaluation.value.report)
                && reference == Some(v.files.evaluation.value.report.score.candidateId))
    ensures |past| <= |Committed(past, files)| <= |past| + 1
  {
    hide Inv, OnlineBest, FeedbackOk, Selected;
    var committed := Committed(past, files);
    LastFeedbackNamesBest(cfg, t, files, past);
    if FilesOf(files, |past| + 1).feedback.Some? {
      CurrentFeedback(cfg, t, files, past);
    } else {
      BestBeforeFeedback(cfg, t, files, past);
    }
    FinalFacts(cfg, t, files, past);
  }

  lemma LastFeedbackNamesBest(cfg: Config, t: Tables, files: Files, past: seq<Record>)
    requires Inv(cfg, t, files, past)
    ensures LastBestAfter(Committed(past, files)) == IdOf(OnlineBest(Committed(past, files)))
  {
    hide Inv, FeedbackOk;
    var committed := Committed(past, files);
    if committed != [] {
      CommittedFeedback(cfg, t, files, past, |committed| - 1);
      assert committed[..|committed| - 1 + 1] == committed;
    }
  }

  /** A selected BEST has a stored, publicly valid score. */
  lemma BestIsPubliclyValid(cfg: Config, t: Tables, files: Files, past: seq<Record>)
    requires Inv(cfg, t, files, past)
    ensures t.task.Some?
    ensures t.task.value.best.Some? ==>
              t.task.value.best.value in t.scores && t.scores[t.task.value.best.value].IsPubliclyValid()
  {
    hide Inv, OnlineBest, View, CandidateScore.IsPubliclyValid;
    var committed := Committed(past, files);
    FinalFacts(cfg, t, files, past);
    assert committed[..|committed|] == committed;
    CommittedBest(cfg, t, files, past, |committed|);
    LastFeedbackNamesBest(cfg, t, files, past);
    if t.task.value.best != IdOf(OnlineBest(committed)) {
      InFlightIsValid(cfg, t, files, past);
    }
  }

  lemma InFlightIsValid(cfg: Config, t: Tables, files: Files, past: seq<Record>)
    requires Inv(cfg, t, files, past)
    requires t.task.value.best != IdOf(OnlineBest(Committed(past, files)))
    ensures t.task.value.best.Some? && t.task.value.best.value in t.scores
    ensures t.scores[t.task.value.best.value].IsPubliclyValid()
  {
    hide Inv, OnlineBest, FeedbackOk, Selected, PlanFor;
    if FilesOf(files, |past| + 1).feedback.Some? {
      CurrentFeedback(cfg, t, files, past);
      FeedbackNamesNextBest(past, RecordOf(FilesOf(files, |past| + 1)));
    }
    BestBeforeFeedback(cfg, t, files, past);
    CurrentRound(cfg, t, files, past, |past| + 1);
    ScoredRound(t, files, |past| + 1, past);
    SelectedIsValid(past, FilesOf(files, |past| + 1).evaluation.value.report);
  }

  /** Once the search is over, BEST and so the final selection is exactly
      the last feedback's `best_after`. */
  lemma FinalSelectionIsLastFeedback(cfg: Config, t: Tables, files: Files, past: seq<Record>)
    requires Inv(cfg, t, files, past) && !Searching(t)
    ensures t.task.value.best == LastBestAfter(past)
    ensures files.task.finalResult.Some? ==> files.task.finalResult.value.best == LastBestAfter(past)
  {
    hide Inv, OnlineBest, FeedbackOk, Gated, NoRetry;
    FinalFacts(cfg, t, files, past);
    LastFeedbackNamesBest(cfg, t, files, past);
    FinishedSearch(cfg, t, files, past);
    SelectedCandidate(cfg, t, files, past);
    if Gated(cfg, past, files.task) {
      GatedNamesBest(cfg, past, files.task);
    }
  }

  lemma FinishedSearch(cfg: Config, t: Tables, files: Files, past: seq<Record>)
    requires Inv(cfg, t, files, past) && !Searching(t)
    ensures t.task.Some? && t.task.value.currentRound == |past| && Committed(past, files) == past
  {
    hide Inv, OnlineBest, FeedbackOk, Gated, NoRetry, FinalInv;
    OpenRounds(cfg, t, files, past, |past| + 1);
    if FilesOf(files, |past| + 1).feedback.Some? {
      CurrentFeedback(cfg, t, files, past);
    }
  }

  lemma GatedNamesBest(cfg: Config, past: seq<Record>, files: TaskFiles)
    requires Gated(cfg, past, files)
    ensures files.finalResult.Some? && files.finalResult.value.best == IdOf(OnlineBest(past))
  {
    hide OnlineBest;
  }

  // ---------- round recovery ----------

  /** The states behind the stages that ran. */
  function Ending(o: Outcome): seq<RoundState> {
    (if LastStage(o).BenchmarkFinished? then [ProfileFinished] else []) + [FeedbackCommitted, RoundFinished]
  }

  lemma RemainingShape(state: RoundState, o: Outcome)
    requires 3 <= RoundRank(state) <= RoundRank(LastStage(o))
    ensures RoundRank(LastStage(o)) <= 8
    ensures Remaining(state, o) == Some(STAGES[RoundRank(state) - 3..RoundRank(LastStage(o)) - 3] + Ending(o))
  {
    hide LastStage;
    StageRanks(o);
    assert StagesToGo(state, o) + [FeedbackCommitted, RoundFinished]
        == StagesBetween(RoundRank(state), RoundRank(LastStage(o))) + Ending(o);
  }

  /** All the states of a round from its response to its end. */
  function WholePath(o: Outcome): seq<RoundState> {
    RemainingShape(ModelResponseCommitted, o);
    [ModelResponseCommitted] + Remaining(ModelResponseCommitted, o).value
  }

  lemma StageRank(i: nat)
    requires i < 5
    ensures RoundRank(STAGES[i]) == i + 4
  {
  }

  lemma PathShape(o: Outcome)
    ensures var k := RoundRank(LastStage(o)) - 3;
            1 <= k <= 5 && WholePath(o) == [ModelResponseCommitted] + STAGES[..k] + Ending(o)
  {
    hide LastStage, Remaining, Ending;
    StageRanks(o);
    RemainingShape(ModelResponseCommitted, o);
  }

  lemma WholePathIsLegal(o: Outcome)
    ensures ROUND_MACHINE.IsPath(WholePath(o)) && WholePath(o)[|WholePath(o)| - 1] == RoundFinished
  {
    hide LastStage, StrictStateMachine.CanTransition, WholePath;
    PathShape(o);
    var path, k := WholePath(o), RoundRank(LastStage(o)) - 3;
    StageRanks(o);
    forall i | 0 < i < |path| ensures ROUND_MACHINE.CanTransition(path[i - 1], path[i]) {
      if i <= k {
        assert path[i] == STAGES[i - 1] && path[i - 1] == (if i == 1 then ModelResponseCommitted else STAGES[i - 2]);
        StageRank(i - 1);
        if i > 1 {
          StageRank(i - 2);
        }
        StageEdge(path[i - 1]);
      } else {
        EndingEdges(o, path, i);
      }
    }
  }

  lemma EndingEdges(o: Outcome, path: seq<RoundState>, i: nat)
    requires var k := RoundRank(LastStage(o)) - 3;
             1 <= k <= 5 && path == [ModelResponseCommitted] + STAGES[..k] + Ending(o) && k < i < |path|
    ensures ROUND_MACHINE.CanTransition(path[i - 1], path[i])
  {
    hide LastStage;
    var k := RoundRank(LastStage(o)) - 3;
    StageRank(k - 1);
    SameRank(STAGES[k - 1], LastStage(o));
    assert path[k] == STAGES[k - 1];
    StageRanks(o);
    FeedbackEdge(o, Files(map[], TaskFiles(None, None, None)), 0, false);
    if i > k + 1 || !LastStage(o).BenchmarkFinished? {
      assert path[|path| - 2] == FeedbackCommitted && path[|path| - 1] == RoundFinished;
    }
  }

  /** Cut the path anywhere and resume: what remains is exactly the rest of it,
      unless the benchmark failed and the cut is behind the finished profile. */
  lemma RoundRecoveryIsExact(o: Outcome, cut: nat)
    requires cut < |WholePath(o)|
    ensures ROUND_MACHINE.IsPath(WholePath(o)) && WholePath(o)[|WholePath(o)| - 1] == RoundFinished
    ensures RoundRank(WholePath(o)[cut]) >= 3
    ensures Remaining(WholePath(o)[cut], o) == Some(WholePath(o)[cut + 1..])
            <==> !(LastStage(o).BenchmarkFinished? && WholePath(o)[cut].ProfileFinished?)
    ensures LastStage(o).BenchmarkFinished? && WholePath(o)[cut].ProfileFinished? ==>
              Remaining(WholePath(o)[cut], o).None?
  {
    hide LastStage, WholePath, StrictStateMachine.IsPath, Remaining, Ending;
    WholePathIsLegal(o);
    PathShape(o);
    var k := RoundRank(LastStage(o)) - 3;
    if cut <= k {
      CutAmongStages(o, cut);
    } else {
      CutInEnding(o, cut);
    }
  }

  lemma CutAmongStages(o: Outcome, cut: nat)
    requires cut <= RoundRank(LastStage(o)) - 3 && cut < |WholePath(o)|
    ensures RoundRank(WholePath(o)[cut]) == cut + 3 && WholePath(o)[cut] != RoundFinished
    ensures Remaining(WholePath(o)[cut], o) == Some(WholePath(o)[cut + 1..])
    ensures !(LastStage(o).BenchmarkFinished? && WholePath(o)[cut].ProfileFinished?)
  {
    hide LastStage, WholePath, Ending, Remaining;
    PathShape(o);
    var path, k := WholePath(o), RoundRank(LastStage(o)) - 3;
    if cut > 0 {
      assert path[cut] == STAGES[cut - 1];
      StageRank(cut - 1);
    }
    RemainingShape(path[cut], o);
    assert path[cut + 1..] == STAGES[cut..k] + Ending(o);
  }

  lemma CutInEnding(o: Outcome, cut: nat)
    requires RoundRank(LastStage(o)) - 3 < cut < |WholePath(o)|
    ensures RoundRank(WholePath(o)[cut]) >= 8
    ensures Remaining(WholePath(o)[cut], o) ==
              if WholePath(o)[cut].ProfileFinished? then None else Some(WholePath(o)[cut + 1..])
    ensures WholePath(o)[cut].ProfileFinished? ==> LastStage(o).BenchmarkFinished?
  {
    hide LastStage, WholePath, Ending;
    PathShape(o);
    var k := RoundRank(LastStage(o)) - 3;
    TailOf([ModelResponseCommitted] + STAGES[..k], Ending(o), cut);
    EndingAt(o, cut - k - 1);
  }

  lemma TailOf(front: seq<RoundState>, tail: seq<RoundState>, i: nat)
    requires |front| <= i < |front + tail|
    ensures (front + tail)[i] == tail[i - |front|] && (front + tail)[i + 1..] == tail[i - |front| + 1..]
  {
  }

  lemma EndingAt(o: Outcome, i: nat)
    requires i < |Ending(o)|
    ensures RoundRank(Ending(o)[i]) >= 8
    ensures Ending(o)[i].ProfileFinished? ==> LastStage(o).BenchmarkFinished?
    ensures Remaining(Ending(o)[i], o) ==
              if Ending(o)[i].ProfileFinished? then None else Some(Ending(o)[i + 1..])
  {
    hide LastStage;
    assert [FeedbackCommitted, RoundFinished][1..] == [RoundFinished];
    assert [FeedbackCommitted, RoundFinished][2..] == [];
    if LastStage(o).BenchmarkFinished? {
      assert Ending(o) == [ProfileFinished, FeedbackCommitted, RoundFinished];
      assert Ending(o)[2..] == [RoundFinished] && Ending(o)[3..] == [];
    } else {
      assert Ending(o) == [FeedbackCommitted, RoundFinished];
    }
  }

  /** In the states the invariant allows, the refusal is exactly the stuck state. */
  lemma RefusedIffStuck(cfg: Config, t: Tables, files: Files, past: seq<Record>, n: nat)
    requires Inv(cfg, t, files, past) && 1 <= n <= t.task.value.currentRound
    requires n in t.rounds && RoundRank(t.rounds[n].state) >= 3 && FilesOf(files, n).evaluation.Some?
    ensures Remaining(t.rounds[n].state, FilesOf(files, n).evaluation.value.report.outcome).None?
            <==> Stuck(View(t, files, n))
  {
    hide Inv, LastStage;
    AdvanceFacts(cfg, t, files, past, n);
    StageRanks(FilesOf(files, n).evaluation.value.report.outcome);
    WhenStuck(t, files, n);
  }

  // ---------- trajectory ----------

  /** Every committed evaluation carries the plan its predecessors call for, and
      no round was opened after one that requires an infrastructure retry. */
  lemma CommittedPlansReplay(cfg: Config, t: Tables, files: Files, past: seq<Record>, n: nat)
    requires Inv(cfg, t, files, past) && n < |past|
    ensures past[n].evaluation.plan == PlanAfter(ReadyFlags(past)[..n])
    ensures past[n].evaluation.plan.index >= 1
    ensures past[n].evaluation.plan.phase.Repair? <==>
              forall j | 0 <= j < n :: !SeedReady(past[j].evaluation.report.outcome)
    ensures past[n].evaluation.plan.phase.Optimization? <==>
              n > 0 && SeedReady(past[n - 1].evaluation.report.outcome)
    ensures n + 1 < t.task.value.currentRound ==> !InfrastructureRetry(past[n].evaluation.report.outcome)
  {
    hide Inv, SeedReady, InfrastructureRetry, FeedbackOk;
    RecordedScore(cfg, t, files, past, n + 1);
    assert ReadyFlags(past)[..n] == ReadyFlags(past[..n]);
    TrajectoryShape(ReadyFlags(past), n);
    OnlyLastRetries(cfg, t, files, past, n);
  }

  lemma OnlyLastRetries(cfg: Config, t: Tables, files: Files, past: seq<Record>, n: nat)
    requires Inv(cfg, t, files, past) && n < |past|
    ensures t.task.Some? && (n + 1 < t.task.value.currentRound ==> !InfrastructureRetry(past[n].evaluation.report.outcome))
  {
    hide RoundInv, BestInv, FinalInv, CandidatesInv, IsRecord, InfrastructureRetry;
    if n + 1 < |past| {
      assert past[..|past| - 1][n] == past[n];
    }
  }

  // ---------- the final result ----------

  /** A terminal task agrees with its final result: finished iff the result passed,
      failed iff it did not; a finished task's BEST also passed the hidden test. */
  lemma TerminalStateAgreesWithResult(cfg: Config, t: Tables, files: Files, past: seq<Record>)
    requires Inv(cfg, t, files, past) && Terminal(t)
    ensures files.task.finalResult.Some?
    ensures t.task.value.state.TaskFinished? <==> files.task.finalResult.value.status.IsPassed()
    ensures t.task.value.state.TaskFailed? <==> !files.task.finalResult.value.status.IsPassed()
    ensures files.task.finalResult.value.status.FailedNoValidCandidate? <==> OnlineBest(past).None?
    ensures |past| == cfg.rounds && t.task.value.currentRound == cfg.rounds
  {
    hide Inv, OnlineBest;
    FinalFacts(cfg, t, files, past);
  }

  /** The result in front of a terminal transition is never rewritten: whatever is
      committed equals what a resumed run computes again. */
  lemma ResultIsRecomputed(cfg: Config, t: Tables, files: Files, past: seq<Record>)
    requires Inv(cfg, t, files, past) && files.task.finalResult.Some?
    ensures Complete(cfg, past)
    ensures OnlineBest(past).None? ==> files.task.finalResult.value == NoCandidateResult(past)
    ensures OnlineBest(past).Some? ==>
              files.task.finalEvaluation.Some?
              && files.task.finalResult.value == GatedResult(cfg, past, files.task.finalEvaluation.value)
  {
    hide Inv, OnlineBest, GatedResult, NoCandidateResult, NoRetry;
    FinalFacts(cfg, t, files, past);
  }

  lemma FinishedMeansFinallyValid(cfg: Config, t: Tables, files: Files, past: seq<Record>)
    requires Inv(cfg, t, files, past) && Terminal(t) && t.task.value.state.TaskFinished?
    ensures t.task.value.best.Some? && t.task.value.best.value in t.scores
    ensures t.scores[t.task.value.best.value].IsFinallyValid()
  {
    hide Inv, OnlineBest, NoRetry, InfrastructureRetry, PassedStage;
    FinalFacts(cfg, t, files, past);
    SelectedCandidate(cfg, t, files, past);
    assert past[..|past|] == past;
    PastBestHasRow(cfg, t, files, past, |past|);
    BestIsStored(cfg, t, files, past, |past|);
    PassedMeansHidden(cfg, files.task.finalEvaluation.value);
  }

  lemma PassedMeansHidden(cfg: Config, report: Report)
    ensures GateOf(cfg, report).0.IsPassed() ==> GateOf(cfg, report).1
  {
  }

  // ---------- response recovery ----------

  /** A crash behind the committed exchange loses nothing: the exchange reads as
      one response, that response prints as the exchange, and a response file, if
      it was written, holds the same. */
  lemma ExchangeRebuildsResponse(cfg: Config, t: Tables, files: Files, past: seq<Record>, n: nat)
    requires Inv(cfg, t, files, past) && 1 <= n <= t.task.value.currentRound && FilesOf(files, n).exchange.Some?
    ensures var f := FilesOf(files, n);
            && Readable(n, f.exchange.value)
            && ParsedResponse(n, f.exchange.value).value.ToDict() == f.exchange.value
            && (f.response.Some? ==>
                  && ParsedResponse(n, f.response.value) == ParsedResponse(n, f.exchange.value)
                  && (f.candidate.Some? ==>
                        f.candidate.value == ParsedResponse(n, f.exchange.value).value.code))
            && f.failureExchange.None? && f.modelFailure.None?
  {
    hide Inv, Validate, EvaluationInv, FeedbackInv, PromptFor;
    RoundOf(cfg, t, files, past, n);
  }
}
