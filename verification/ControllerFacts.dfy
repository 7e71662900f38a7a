/** What the controller's methods use of the invariant, one small fact each. */
module ControllerFacts {
  import opened Wrappers
  import opened JsonValue
  import opened Text
  import opened StateMachine
  import opened Scoring
  import opened Trajectory
  import opened ModelResponses
  import opened StateStore
  import opened ControllerModel
  import opened ControllerSteps
  import opened ControllerTask
  import Utf8

  const STAGES := [SourceValidated, CompileFinished, CorrectnessFinished, BenchmarkFinished, ProfileFinished]

  lemma PromptIsThere(cfg: Config, t: Tables, files: Files, past: seq<Record>, n: nat)
    requires Inv(cfg, t, files, past) && n in t.rounds && !t.rounds[n].state.RoundCreated?
    ensures FilesOf(files, n).prompt.Some?
  {
    hide Inv, ResponseInv, CandidateInv, EvaluationInv, FeedbackInv;
    OpenRounds(cfg, t, files, past, n);
    RoundOf(cfg, t, files, past, n);
  }

  lemma RequestReady(files: Files, n: nat, scored: bool)
    ensures ReadyFor(ModelRequestSent, FilesOf(files, n), scored)
  {
  }

  lemma FirstEdges()
    ensures ROUND_MACHINE.CanTransition(RoundCreated, PromptCommitted)
    ensures ROUND_MACHINE.CanTransition(PromptCommitted, ModelRequestSent)
    ensures ROUND_MACHINE.CanTransition(ModelRequestSent, ModelResponseCommitted)
  {
  }

  /** Where the selected BEST leads while the current round has no feedback: to the
      incumbent's row, to nothing when nothing was eligible yet, or to a row of
      the current round. */
  lemma WhoIsBest(cfg: Config, t: Tables, files: Files, past: seq<Record>)
    requires Inv(cfg, t, files, past) && Searching(t) && FilesOf(files, |past| + 1).feedback.None?
    ensures t.task.Some?
    ensures var reference, best := t.task.value.best, OnlineBest(past);
            && (reference == IdOf(best) && best.Some? ==>
                  Lookup(t.scores, reference.value) == best && best.value.roundNumber <= |past|)
            && (reference == IdOf(best) && best.None? ==> UnpairedBest(past).None?)
            && (reference != IdOf(best) ==>
                  && reference.Some? && Lookup(t.scores, reference.value).Some?
                  && Lookup(t.scores, reference.value).value.roundNumber == |past| + 1)
  {
    hide Inv, OnlineBest, UnpairedBest, Selected;
    assert past[..|past|] == past;
    PastBestHasRow(cfg, t, files, past, |past|);
    BestBeforeFeedback(cfg, t, files, past);
    SomeBestOrNone(past);
    if t.task.value.best != IdOf(OnlineBest(past)) {
      CurrentRound(cfg, t, files, past, |past| + 1);
      ScoredRound(t, files, |past| + 1, past);
      ScoredHere(|past| + 1, past, View(t, files, |past| + 1));
    }
  }

  lemma UnpairedIsFold(past: seq<Record>)
    ensures UnpairedBest(past) == Incumbent(Bests(Scores(past)))
  {
  }

  /** A round that was just created has not moved BEST. */
  lemma NewRoundBest(n: nat, before: seq<Record>, v: RoundView, reference: Option<CandidateId>)
    requires RoundInv(n, before, v, true) && BestInv(before, v, reference) && v.row.value.state.RoundCreated?
    ensures v.files.feedback.None? && reference == IdOf(OnlineBest(before))
  {
    hide ResponseInv, OnlineBest, PlanFor;
  }

  lemma PromptFits(n: nat, before: seq<Record>, files: Files, v: RoundView, reference: Option<CandidateId>)
    requires n == |before| + 1 && v.files == FilesOf(files, n)
    requires RoundInv(n, before, v, true) && v.row.value.state.RoundCreated?
    ensures var a := PromptFile(n, PromptFor(n, before));
            Fits(a, before, v, reference) && !ConflictsWith(files, a)
  {
    hide ResponseInv, CandidateInv, EvaluationInv, FeedbackInv, OnlineBest, PlanFor;
  }

  /** A file that was written is there, and the others of its round are as before. */
  lemma Written(files: Files, before: Files, a: Artifact)
    requires IsRoundArtifact(a) && files == WithArtifact(before, a)
    ensures FilesOf(files, a.round) == InRound(FilesOf(before, a.round), a)
  {
  }

  // ---------- responses fit ----------

  /** A readable file, and exchanges that print as they read. */
  lemma CommittedResponse(cfg: Config, t: Tables, files: Files, past: seq<Record>, n: nat)
    requires Inv(cfg, t, files, past) && IsCurrent(t, past, n)
    ensures var f := FilesOf(files, n);
            && (f.response.Some? ==> Validate(Obj(f.response.value), Some(n), true).Ok?)
            && (f.exchange.Some? ==>
                  var verdict := Validate(Obj(f.exchange.value), Some(n), true);
                  verdict.Ok? && verdict.value.ToDict() == f.exchange.value)
  {
    hide Inv, Validate, CandidateInv, EvaluationInv, FeedbackInv, PromptFor;
    CurrentRound(cfg, t, files, past, n);
  }

  /** What the commit lemmas need to know about the files of an open request. */
  lemma OpenRequest(cfg: Config, t: Tables, files: Files, past: seq<Record>, n: nat)
    requires Inv(cfg, t, files, past) && IsCurrent(t, past, n)
    requires n in t.rounds && t.rounds[n].state.ModelRequestSent?
    ensures View(t, files, n).row.Some? && View(t, files, n).row.value.state.ModelRequestSent?
    ensures View(t, files, n).files == FilesOf(files, n)
    ensures ResponseInv(n, 2, FilesOf(files, n)) && FilesOf(files, n).candidate.None?
  {
    hide Inv, Validate, EvaluationInv, FeedbackInv, PromptFor, ResponseInv;
    CurrentRound(cfg, t, files, past, n);
  }

  lemma ExchangedResponseFits(cfg: Config, t: Tables, files: Files, past: seq<Record>, n: nat)
    requires Inv(cfg, t, files, past) && IsCurrent(t, past, n)
    requires n in t.rounds && t.rounds[n].state.ModelRequestSent?
    requires FilesOf(files, n).exchange.Some? && FilesOf(files, n).response.None?
    ensures var a := ResponseFile(n, FilesOf(files, n).exchange.value);
            Fits(a, past, View(t, files, n), t.task.value.best) && !ConflictsWith(files, a)
  {
    hide Inv, Validate, View;
    OpenRequest(cfg, t, files, past, n);
  }

  lemma FailureFits(cfg: Config, t: Tables, files: Files, past: seq<Record>, n: nat)
    requires Inv(cfg, t, files, past) && IsCurrent(t, past, n)
    requires n in t.rounds && t.rounds[n].state.ModelRequestSent?
    requires FilesOf(files, n).failureExchange.Some?
    ensures var a := ModelFailureFile(n, FilesOf(files, n).failureExchange.value);
            Fits(a, past, View(t, files, n), t.task.value.best) && !ConflictsWith(files, a)
  {
    hide Inv, Validate, View;
    OpenRequest(cfg, t, files, past, n);
  }

  lemma SyntheticFits(cfg: Config, t: Tables, files: Files, past: seq<Record>, n: nat)
    requires Inv(cfg, t, files, past) && IsCurrent(t, past, n)
    requires n in t.rounds && t.rounds[n].state.ModelRequestSent?
    requires FilesOf(files, n).failureExchange.Some? && FilesOf(files, n).modelFailure.Some?
    requires Readable(n, SyntheticResponse(n))
    ensures var a := ResponseFile(n, SyntheticResponse(n));
            Fits(a, past, View(t, files, n), t.task.value.best) && !ConflictsWith(files, a)
  {
    hide Inv, Validate, View, SyntheticResponse;
    OpenRequest(cfg, t, files, past, n);
  }

  lemma ExchangeFits(cfg: Config, t: Tables, files: Files, past: seq<Record>, n: nat, response: ModelResponse)
    requires Inv(cfg, t, files, past) && IsCurrent(t, past, n)
    requires n in t.rounds && t.rounds[n].state.ModelRequestSent?
    requires FilesOf(files, n).response.None? && FilesOf(files, n).exchange.None?
    requires FilesOf(files, n).failureExchange.None?
    requires Validate(Obj(response.ToDict()), Some(n), true) == Ok(response)
    ensures var a := ExchangeFile(n, response.ToDict());
            Fits(a, past, View(t, files, n), t.task.value.best) && !ConflictsWith(files, a)
  {
    hide Inv, Validate, View;
    OpenRequest(cfg, t, files, past, n);
  }

  lemma FailureExchangeFits(cfg: Config, t: Tables, files: Files, past: seq<Record>, n: nat, error: ResponseError)
    requires Inv(cfg, t, files, past) && IsCurrent(t, past, n)
    requires n in t.rounds && t.rounds[n].state.ModelRequestSent?
    requires FilesOf(files, n).response.None? && FilesOf(files, n).exchange.None?
    requires FilesOf(files, n).failureExchange.None?
    ensures var a := FailureExchangeFile(n, error);
            Fits(a, past, View(t, files, n), t.task.value.best) && !ConflictsWith(files, a)
  {
    hide Inv, Validate, View;
    OpenRequest(cfg, t, files, past, n);
  }

  /** A live response validates from its own print, without legacy mode too. */
  lemma LiveResponseIsStable(c: Completion, n: nat)
    ensures var verdict := ValidateCompletion(c, Some(n));
            verdict.Ok? ==>
              && Validate(Obj(verdict.value.ToDict()), Some(n), false) == verdict
              && Validate(Obj(verdict.value.ToDict()), Some(n), true) == verdict
  {
    hide Validate, Lower;
    LiveResponsesAreCurrent(c, Some(n));
    var verdict := ValidateCompletion(c, Some(n));
    if verdict.Ok? {
      ResponseRoundTrip(c.content.value, Some(n), false);
    }
  }

  lemma ResponseReady(files: Files, n: nat, scored: bool)
    ensures FilesOf(files, n).response.Some? ==> ReadyFor(ModelResponseCommitted, FilesOf(files, n), scored)
  {
  }

  /** The stand-in response passes the historical schema's validation. */
  lemma SyntheticIsReadable(n: nat)
    requires n >= 1
    ensures Readable(n, SyntheticResponse(n))
  {
    hide CheckCode, StringList;
    var fields := SyntheticResponse(n);
    assert fields.Keys == LEGACY_V1_FIELDS;
    assert "change_summary" !in LEGACY_V2_FIELDS && "change_summary" in LEGACY_V1_FIELDS;
    SyntheticCodeIsAccepted();
    SyntheticLists();
  }

  ghost predicate IsAscii(text: string) {
    forall i | 0 <= i < |text| :: 0 < text[i] as int < 0x80
  }

  lemma AsciiConcat(a: string, b: string)
    requires IsAscii(a) && IsAscii(b)
    ensures IsAscii(a + b)
  {
  }

  lemma SyntheticTextIsAscii()
    ensures IsAscii(SYNTHETIC_CODE) && IsAscii(SYNTHETIC_NOTE)
  {
    AsciiConcat("# Invalid model response; ", "this round intentionally ");
    AsciiConcat("# Invalid model response; " + "this round intentionally ", "fails source validation.\n");
    AsciiConcat("Model output failed ", "structured-response validation.");
  }

  /** A text that is not blank, short, without fence at either end. */
  lemma CodeIsAccepted(code: string)
    requires 5 <= |code| <= 1000 && IsAscii(code)
    requires code[0] == '#' && code[|code| - 1] == '\n' && code[|code| - 2] == '.'
    ensures CheckCode(Str(code)) == Ok(code)
  {
    hide Utf8.Encode;
    Utf8.AsciiSize(code);
    var trimmed := code[..|code| - 1];
    assert StripLeft(code) == code;
    assert StripRight(code) == StripRight(trimmed) == trimmed;
    assert trimmed[|trimmed| - 3..][2] == '.' && FENCE[2] == '`';
    assert code[..3][0] == '#' && FENCE[0] == '`';
  }

  lemma SyntheticCodeIsAccepted()
    ensures CheckCode(Str(SYNTHETIC_CODE)) == Ok(SYNTHETIC_CODE)
  {
    hide CheckCode, IsAscii;
    SyntheticTextIsAscii();
    var last := "fails source validation.\n";
    assert last[|last| - 1] == '\n' && last[|last| - 2] == '.';
    CodeIsAccepted(SYNTHETIC_CODE);
  }

  lemma SyntheticLists()
    ensures StringList(Arr([]), "change_summary").Ok? && StringList(Arr([]), "expected_effect").Ok?
    ensures StringList(Arr([Str(SYNTHETIC_NOTE)]), "assumptions").Ok?
  {
    SyntheticTextIsAscii();
    OneString(SYNTHETIC_NOTE, "assumptions");
  }

  lemma OneString(text: string, field: string)
    requires IsAscii(text)
    ensures StringList(Arr([Str(text)]), field).Ok?
  {
    assert forall c | c in text :: c != NUL;
  }

  // ---------- candidates and evaluations fit ----------

  lemma CandidateFits(cfg: Config, t: Tables, files: Files, past: seq<Record>, n: nat)
    requires Inv(cfg, t, files, past) && 1 <= n <= t.task.value.currentRound
    requires n in t.rounds && RoundRank(t.rounds[n].state) >= 3
    ensures var f := FilesOf(files, n);
            && f.response.Some? && Validate(Obj(f.response.value), Some(n), true).Ok?
            && var a := CandidateFile(n, Validate(Obj(f.response.value), Some(n), true).value.code);
               (n <= |past| ==> AlreadyCommitted(files, a)) &&
               (AlreadyCommitted(files, a) ||
               (IsCurrent(t, past, n) && Fits(a, past, View(t, files, n), t.task.value.best)
                && !ConflictsWith(files, a)))
  {
    hide Inv, Validate, EvaluationInv, FeedbackInv, PromptFor;
    RoundOf(cfg, t, files, past, n);
    OpenRounds(cfg, t, files, past, n);
    if n <= |past| {
      RecordedScore(cfg, t, files, past, n);
    }
  }

  /** A registered candidate's round: its evaluation, if any, is the replayed one. */
  lemma RegisteredRound(cfg: Config, t: Tables, files: Files, past: seq<Record>, n: nat)
    requires Inv(cfg, t, files, past) && 1 <= n <= t.task.value.currentRound
    requires View(t, files, n).registered.Some?
    ensures var f := FilesOf(files, n);
            && f.candidate.Some?
            && (f.evaluation.Some? ==>
                  && f.evaluation.value.plan == PlanFor(past[..n - 1])
                  && f.evaluation.value.report.score.candidateId == CandidateId(n, f.candidate.value)
                  && f.evaluation.value.report.score.roundNumber == n
                  && (f.modelFailure.Some? ==> !f.evaluation.value.report.score.IsPubliclyValid()))
            && (f.evaluation.None? ==>
                  && n == |past| + 1 && IsCurrent(t, past, n) && Searching(t) && f.feedback.None?
                  && t.task.value.best == IdOf(OnlineBest(past)))
  {
    hide Inv, Validate, ResponseInv, PromptFor, PlanFor, FeedbackOk, OnlineBest;
    RoundOf(cfg, t, files, past, n);
    OpenRounds(cfg, t, files, past, n);
    if n <= |past| {
      RecordedScore(cfg, t, files, past, n);
    } else if FilesOf(files, n).evaluation.None? {
      BestBeforeFeedback(cfg, t, files, past);
    }
  }

  lemma EvaluationFits(cfg: Config, t: Tables, files: Files, past: seq<Record>, n: nat, e: Evaluation)
    requires Inv(cfg, t, files, past) && IsCurrent(t, past, n)
    requires View(t, files, n).registered.Some? && FilesOf(files, n).evaluation.None?
    requires FilesOf(files, n).candidate.Some? && e.plan == PlanFor(past)
    requires e.report.score.candidateId == CandidateId(n, FilesOf(files, n).candidate.value)
    requires e.report.score.roundNumber == n
    requires FilesOf(files, n).modelFailure.Some? ==> e.report == FailureReport(e.report.score.candidateId)
    ensures var a := EvaluationFile(n, e);
            Fits(a, past, View(t, files, n), t.task.value.best) && !ConflictsWith(files, a)
  {
    hide Inv, ResponseInv, CandidateInv, FeedbackInv, PlanFor;
    CurrentRound(cfg, t, files, past, n);
  }

  lemma FailureIdentity(id: CandidateId)
    requires id.round >= 1
    ensures FailureReport(id).score.candidateId == id && FailureReport(id).score.roundNumber == id.round
  {
  }

  lemma ScoreIsItself(score: CandidateScore)
    ensures SameUpToHidden(score, score)
  {
  }

  lemma OnlineBestOfNone()
    ensures OnlineBest([]).None?
  {
  }

  // ---------- feedback fits ----------

  /** The incumbent the feedback of the current round is compared against. */
  function ContextBest(t: Tables, past: seq<Record>): (best: Option<CandidateScore>)
    requires t.task.Some?
    ensures Eligible(best)
  {
    if t.task.value.best == IdOf(OnlineBest(past)) then OnlineBest(past) else UnpairedBest(past)
  }

  lemma UnpairedBestHasRow(cfg: Config, t: Tables, files: Files, past: seq<Record>)
    requires Inv(cfg, t, files, past) && Searching(t)
    ensures RowOf(t, UnpairedBest(past)) == UnpairedBest(past)
  {
    hide Inv, OnlineBest, FeedbackOk, PlanFor;
    var best := UnpairedBest(past);
    if best.Some? {
      assert best.value in Scores(past);
      var i :| 0 <= i < |past| && Scores(past)[i] == best.value;
      RecordedScore(cfg, t, files, past, i + 1);
    }
  }

  /** A scored round without feedback is the current one. */
  lemma NoFeedbackMeansCurrent(cfg: Config, t: Tables, files: Files, past: seq<Record>, n: nat)
    requires Inv(cfg, t, files, past) && 1 <= n <= t.task.value.currentRound && FilesOf(files, n).feedback.None?
    ensures n == |past| + 1 && IsCurrent(t, past, n) && Searching(t)
  {
    hide Inv, FeedbackOk, PlanFor;
    OpenRounds(cfg, t, files, past, n);
    if n <= |past| {
      RecordedScore(cfg, t, files, past, n);
    }
  }

  /** What is known before the feedback of the current round is decided. */
  lemma FeedbackContext(cfg: Config, t: Tables, files: Files, past: seq<Record>, n: nat)
    requires Inv(cfg, t, files, past) && 1 <= n <= t.task.value.currentRound
    requires FilesOf(files, n).evaluation.Some? && View(t, files, n).score.Some? && FilesOf(files, n).feedback.None?
    ensures n == |past| + 1 && IsCurrent(t, past, n) && Searching(t)
    ensures RowOf(t, ContextBest(t, past)) == ContextBest(t, past)
    ensures t.task.value.best != IdOf(OnlineBest(past)) ==>
              var report := FilesOf(files, n).evaluation.value.report;
              Selected(past, report) && t.task.value.best == Some(report.score.candidateId)
  {
    hide Inv, OnlineBest, UnpairedBest, Selected, View;
    NoFeedbackMeansCurrent(cfg, t, files, past, n);
    UnpairedBestHasRow(cfg, t, files, past);
    assert past[..|past|] == past;
    PastBestHasRow(cfg, t, files, past, |past|);
    BestBeforeFeedback(cfg, t, files, past);
    assert View(t, files, n).files == FilesOf(files, n) by { ViewFiles(t, files, n); }
  }

  lemma ViewFiles(t: Tables, files: Files, n: int)
    ensures View(t, files, n).files == FilesOf(files, n)
  {
  }

  /** Selecting the candidate of the current round, or selecting it again. */
  lemma SelectStep(cfg: Config, t: Tables, files: Files, past: seq<Record>, n: nat, reason: string)
    requires Inv(cfg, t, files, past) && 1 <= n <= t.task.value.currentRound
    requires FilesOf(files, n).evaluation.Some? && View(t, files, n).score.Some? && FilesOf(files, n).feedback.None?
    requires OnlineComparison(FilesOf(files, n).evaluation.value.report, ContextBest(t, past)).decision.Selects()
    ensures var id := FilesOf(files, n).evaluation.value.report.score.candidateId;
            var w := Selecting(id, reason);
            && Attempt(t, w).Ok? && Inv(cfg, Apply(t, w), files, past)
            && IsCurrent(Apply(t, w), past, n) && Apply(t, w).task.value.best == Some(id)
            && Apply(t, w).rounds == t.rounds && Apply(t, w).scores == t.scores
            && Apply(t, w).task.value.state == t.task.value.state
            && View(Apply(t, w), files, n) == View(t, files, n)
            && Selected(past, FilesOf(files, n).evaluation.value.report)
  {
    hide Inv, OnlineBest, UnpairedBest, OnlineComparison;
    FeedbackContext(cfg, t, files, past, n);
    SetBestStep(cfg, t, files, past, n, reason);
  }

  lemma FeedbackFits(cfg: Config, before: Tables, t: Tables, files: Files, past: seq<Record>, n: nat, feedback: Feedback)
    requires Inv(cfg, before, files, past) && Inv(cfg, t, files, past)
    requires 1 <= n <= before.task.value.currentRound && n in t.rounds
    requires t.rounds == before.rounds && t.scores == before.scores && IsCurrent(t, past, n)
    requires FilesOf(files, n).evaluation.Some? && View(t, files, n).score.Some? && FilesOf(files, n).feedback.None?
    requires View(t, files, n) == View(before, files, n)
    requires t.rounds[n].state == StagesRecorded(FilesOf(files, n).evaluation.value.report.outcome)
    requires var report := FilesOf(files, n).evaluation.value.report;
             var context := ContextBest(before, past);
             var selects := OnlineComparison(report, context).decision.Selects();
             && feedback.comparison == OnlineComparison(report, context)
             && feedback.bestBefore == IdOf(context)
             && (selects ==> t.task.value.best == Some(report.score.candidateId)
                             && Selected(past, report))
             && (!selects ==> t.task == before.task)
             && feedback.bestAfter == (if t.task.value.best.Some? && t.task.value.best.value in t.scores
                                       then t.task.value.best else None)
    ensures Fits(FeedbackFile(n, feedback), past, View(t, files, n), t.task.value.best)
    ensures !ConflictsWith(files, FeedbackFile(n, feedback))
  {
    hide Inv, UnpairedBest, OnlineComparison;
    var report := FilesOf(files, n).evaluation.value.report;
    FeedbackContext(cfg, before, files, past, n);
    BestHasStoredRow(cfg, t, files, past);
    FeedbackChoice(before, t, past, report, feedback);
  }

  /** A selected BEST always has a stored score. */
  lemma BestHasStoredRow(cfg: Config, t: Tables, files: Files, past: seq<Record>)
    requires Inv(cfg, t, files, past)
    ensures t.task.Some? && (t.task.value.best.Some? ==> t.task.value.best.value in t.scores)
  {
    hide Inv, OnlineBest;
    BestFollowsFeedback(cfg, t, files, past);
    var committed := Committed(past, files);
    CommittedBest(cfg, t, files, past, |committed|);
    assert committed[..|committed|] == committed;
  }

  lemma FeedbackChoice(before: Tables, t: Tables, past: seq<Record>, report: Report, feedback: Feedback)
    requires before.task.Some? && t.task.Some?
    requires var context := ContextBest(before, past);
             var selects := OnlineComparison(report, context).decision.Selects();
             && feedback.comparison == OnlineComparison(report, context)
             && feedback.bestBefore == IdOf(context)
             && (selects ==> t.task.value.best == Some(report.score.candidateId))
             && (!selects ==> t.task == before.task)
             && feedback.bestAfter == t.task.value.best
    requires before.task.value.best != IdOf(OnlineBest(past)) ==>
               Selected(past, report) && before.task.value.best == Some(report.score.candidateId)
    ensures FeedbackOk(past, report, feedback)
  {
    hide OnlineBest, UnpairedBest, OnlineComparison;
  }

  // ---------- stages ----------

  lemma StageRanks(outcome: Outcome)
    ensures 4 <= RoundRank(LastStage(outcome)) <= RoundRank(StagesRecorded(outcome)) <= 8
    ensures StagesRecorded(outcome) == if LastStage(outcome) == BenchmarkFinished then ProfileFinished else LastStage(outcome)
  {
  }

  // ---------- the transitions that are left ----------

  /** The states of the stages behind one rank, up to another. */
  function StagesBetween(low: nat, high: nat): seq<RoundState>
    requires 3 <= low <= high <= 8
  {
    STAGES[low - 3..high - 3]
  }

  /** The stages of an outcome that a round in `state` has not entered. */
  function StagesToGo(state: RoundState, o: Outcome): seq<RoundState>
    requires 3 <= RoundRank(state) <= RoundRank(LastStage(o))
  {
    StageRanks(o);
    StagesBetween(RoundRank(state), RoundRank(LastStage(o)))
    + if LastStage(o).BenchmarkFinished? then [ProfileFinished] else []
  }

  /** The transitions a resumed round still takes once its evaluation is
      committed, or the refusal of a state ahead of the outcome. */
  function Remaining(state: RoundState, o: Outcome): Option<seq<RoundState>>
    requires RoundRank(state) >= 3
  {
    if state == RoundFinished then Some([])
    else if state == FeedbackCommitted then Some([RoundFinished])
    else if RoundRank(state) > RoundRank(LastStage(o)) then None
    else Some(StagesToGo(state, o) + [FeedbackCommitted, RoundFinished])
  }

  const OPENING := [RoundCreated, PromptCommitted, ModelRequestSent, ModelResponseCommitted]

  /** What is left of opening a round, up to its response. */
  function OpeningToGo(row: Option<RoundRow>): seq<RoundState> {
    if row.None? then OPENING
    else if RoundRank(row.value.state) < 3 then OPENING[RoundRank(row.value.state) + 1..]
    else []
  }

  /** What a run of the round enters from here, given its evaluation if it has one. */
  function RestOfRound(row: Option<RoundRow>, evaluation: Option<Evaluation>): seq<RoundState> {
    var state := if row.Some? && RoundRank(row.value.state) >= 3 then row.value.state else ModelResponseCommitted;
    OpeningToGo(row)
    + if evaluation.None? then []
      else
        var rest := Remaining(state, evaluation.value.report.outcome);
        if rest.Some? then rest.value else []
  }

  /** A path went on along `rest`, perhaps not to its end. */
  predicate Along(before: seq<RoundState>, now: seq<RoundState>, rest: seq<RoundState>) {
    before <= now <= before + rest
  }

  /** Entering the next state of the opening takes it off what is left. */
  lemma Opened(path: seq<RoundState>, row: Option<RoundRow>, next: RoundRow)
    requires RoundRank(next.state) <= 3
    requires if row.None? then next.state.RoundCreated? else RoundRank(next.state) == RoundRank(row.value.state) + 1
    ensures path + [next.state] + OpeningToGo(Some(next)) == path + OpeningToGo(row)
  {
    assert OpeningToGo(row) == [next.state] + OpeningToGo(Some(next));
  }

  lemma AlongAll(start: seq<RoundState>, rest: seq<RoundState>)
    ensures Along(start, start, rest) && Along(start, start + rest, rest)
  {
  }

  /** A round that is being opened is on its way. */
  lemma AlongOpening(start: seq<RoundState>, path: seq<RoundState>, row: Option<RoundRow>, now: Option<RoundRow>,
                     evaluation: Option<Evaluation>)
    requires start <= path && path + OpeningToGo(now) == start + OpeningToGo(row)
    ensures Along(start, path, RestOfRound(row, evaluation))
  {
    hide OpeningToGo, RestOfRound;
    var tail := OpeningFirst(row, evaluation);
    assert path <= start + OpeningToGo(row);
    assert start + RestOfRound(row, evaluation) == start + OpeningToGo(row) + tail;
  }

  lemma OpeningFirst(row: Option<RoundRow>, evaluation: Option<Evaluation>) returns (tail: seq<RoundState>)
    ensures RestOfRound(row, evaluation) == OpeningToGo(row) + tail
  {
    hide OpeningToGo, Remaining;
    tail := RestOfRound(row, evaluation)[|OpeningToGo(row)|..];
  }

  /** The rest behind the response is what the committed evaluation calls for. */
  lemma AlongRest(start: seq<RoundState>, path: seq<RoundState>, now: seq<RoundState>, row: Option<RoundRow>,
                  state: RoundState, e: Evaluation)
    requires path == start + OpeningToGo(row) && RoundRank(state) >= 3
    requires state == if row.Some? && RoundRank(row.value.state) >= 3 then row.value.state else ModelResponseCommitted
    requires var rest := Remaining(state, e.report.outcome);
             if rest.Some? then Along(path, now, rest.value) else now == path
    ensures Along(start, now, RestOfRound(row, Some(e)))
    ensures var rest := Remaining(state, e.report.outcome);
            rest.Some? && now == path + rest.value ==> now == start + RestOfRound(row, Some(e))
  {
    hide OpeningToGo, Remaining;
    var rest := Remaining(state, e.report.outcome);
    var tail := if rest.Some? then rest.value else [];
    assert RestOfRound(row, Some(e)) == OpeningToGo(row) + tail;
    assert start + (OpeningToGo(row) + tail) == path + tail;
  }

  /** Only a round with a response is evaluated. */
  lemma EvaluatedHasResponse(cfg: Config, t: Tables, files: Files, past: seq<Record>, n: nat)
    requires Inv(cfg, t, files, past) && FilesOf(files, n).evaluation.Some?
    ensures n in t.rounds && RoundRank(t.rounds[n].state) >= 3
  {
    hide Inv, ResponseInv, FeedbackInv, PromptFor, PlanFor;
    OnlyCreatedRounds(cfg, t, files, past, n);
    RoundOf(cfg, t, files, past, n);
  }

  lemma OpenedRow(row: RoundRow)
    requires RoundRank(row.state) >= 3
    ensures OpeningToGo(Some(row)) == []
  {
  }

  lemma NextStage(low: nat, high: nat)
    requires 3 <= low <= high <= 7
    ensures StagesBetween(low, high) + [STAGES[high - 3]] == StagesBetween(low, high + 1)
  {
  }

  lemma StagesSplit(low: nat, middle: nat, high: nat)
    requires 3 <= low <= middle <= high <= 8
    ensures StagesBetween(low, high) == StagesBetween(low, middle) + StagesBetween(middle, high)
  {
  }

  /** Part of the way through the stages of an outcome. */
  lemma AmongStages(start: seq<RoundState>, state: RoundState, o: Outcome, rank: nat)
    requires 3 <= RoundRank(state) <= rank <= RoundRank(LastStage(o))
    ensures RoundRank(LastStage(o)) <= 8
    ensures var path := start + StagesBetween(RoundRank(state), rank);
            && Along(start, path, StagesToGo(state, o))
            && Along(start, start + StagesToGo(state, o), StagesToGo(state, o))
            && (rank < RoundRank(LastStage(o)) ==>
                  path + [STAGES[rank - 3]] == start + StagesBetween(RoundRank(state), rank + 1))
            && (rank == RoundRank(LastStage(o)) ==>
                  start + StagesToGo(state, o)
                  == if LastStage(o).BenchmarkFinished? then path + [ProfileFinished] else path)
  {
    hide LastStage, StagesBetween;
    StageRanks(o);
    StagesSplit(RoundRank(state), rank, RoundRank(LastStage(o)));
    var path, rest := start + StagesBetween(RoundRank(state), rank), StagesBetween(rank, RoundRank(LastStage(o)));
    assert start + StagesToGo(state, o)
        == path + (rest + if LastStage(o).BenchmarkFinished? then [ProfileFinished] else []);
    if rank < RoundRank(LastStage(o)) {
      NextStage(RoundRank(state), rank);
    } else {
      NoStages(rank);
    }
  }

  lemma NoStages(rank: nat)
    requires 3 <= rank <= 8
    ensures StagesBetween(rank, rank) == []
  {
  }

  /** From the recorded stages to the end of the round. */
  lemma AlongRemaining(start: seq<RoundState>, path: seq<RoundState>, state: RoundState, o: Outcome)
    requires 3 <= RoundRank(state) <= RoundRank(LastStage(o)) && Along(start, path, StagesToGo(state, o))
    ensures RoundRank(LastStage(o)) <= 8 && Remaining(state, o).Some?
    ensures Along(start, path, Remaining(state, o).value)
    ensures path == start + StagesToGo(state, o) ==>
              var rest := Remaining(state, o).value;
              && Along(start, path + [FeedbackCommitted], rest)
              && path + [FeedbackCommitted] + [RoundFinished] == start + rest
  {
    hide LastStage, StagesToGo;
    StageRanks(o);
    var rest := Remaining(state, o).value;
    assert rest == StagesToGo(state, o) + [FeedbackCommitted] + [RoundFinished];
    assert start + rest == start + StagesToGo(state, o) + [FeedbackCommitted] + [RoundFinished];
  }

  /** Nothing is refused behind the recorded stages. */
  lemma RemainingAtEnd(start: seq<RoundState>, state: RoundState, o: Outcome)
    requires state == FeedbackCommitted || state == RoundFinished
    ensures Remaining(state, o) == Some(if state == FeedbackCommitted then [RoundFinished] else [])
    ensures Along(start, start, Remaining(state, o).value)
    ensures start + [] == start
    ensures Along(start, start + Remaining(state, o).value, Remaining(state, o).value)
  {
  }

  lemma RemainingRefused(state: RoundState, o: Outcome)
    requires RoundRank(state) >= 3 && state != FeedbackCommitted && state != RoundFinished
    ensures Remaining(state, o).None? <==> RoundRank(state) > RoundRank(LastStage(o))
  {
  }

  lemma PathAfterMove(t: Tables, n: nat, target: RoundState, expected: Option<nat>)
    requires TransitionRound(t, n, target, expected).Ok?
    ensures RoundPath(Apply(t, MovingRound(n, target, expected)).events, n) == RoundPath(t.events, n) + [target]
  {
    PathsAfterEvent(t.events, RoundEntered(n, target));
  }

  lemma PathAfterCreation(t: Tables, n: nat)
    requires n !in t.rounds && CreateRound(t, n).Ok?
    ensures RoundPath(Apply(t, CreatingRound(n)).events, n) == RoundPath(t.events, n) + [RoundCreated]
  {
    PathsAfterEvent(t.events, RoundEntered(n, RoundCreated));
  }

  lemma PathAfterSideWrite(t: Tables, w: Write, n: nat)
    requires w.Registering? || w.Scoring? || w.Selecting?
    ensures RoundPath(Apply(t, w).events, n) == RoundPath(t.events, n)
  {
    hide CandidateScore.IsPubliclyValid;
    var u := Apply(t, w);
    if u.events != t.events {
      PathsAfterEvent(t.events, u.events[|t.events|]);
      assert u.events == t.events + [u.events[|t.events|]];
    }
  }

  lemma AdvanceFacts(cfg: Config, t: Tables, files: Files, past: seq<Record>, n: nat)
    requires Inv(cfg, t, files, past) && 1 <= n <= t.task.value.currentRound
    requires n in t.rounds && FilesOf(files, n).evaluation.Some?
    ensures var f := FilesOf(files, n);
            var outcome := f.evaluation.value.report.outcome;
            var rank := RoundRank(t.rounds[n].state);
            && (rank <= 8 ==> rank <= RoundRank(StagesRecorded(outcome)))
            && (f.feedback.Some? ==> rank >= RoundRank(StagesRecorded(outcome)))
            && (rank >= 9 ==> f.feedback.Some?)
  {
    hide Inv, ResponseInv, CandidateInv, EvaluationInv, PromptFor, FeedbackOk;
    RoundOf(cfg, t, files, past, n);
  }

  lemma WhenStuck(t: Tables, files: Files, n: nat)
    requires n in t.rounds && FilesOf(files, n).evaluation.Some?
    ensures var outcome := FilesOf(files, n).evaluation.value.report.outcome;
            && (Stuck(View(t, files, n)) <==>
                  t.rounds[n].state == ProfileFinished && LastStage(outcome).BenchmarkFinished?)
            && (RoundRank(LastStage(outcome)) < RoundRank(t.rounds[n].state) <= RoundRank(StagesRecorded(outcome)) ==>
                  Stuck(View(t, files, n)))
  {
    var outcome := FilesOf(files, n).evaluation.value.report.outcome;
    SameRank(t.rounds[n].state, ProfileFinished);
  }

  lemma WhenMoved(t: Tables, files: Files, n: nat, target: RoundState)
    requires View(t, files, n).row.Some? && View(t, files, n).row.value.state == target
    ensures n in t.rounds && t.rounds[n].state == target
  {
  }

  lemma StageEdge(state: RoundState)
    requires 3 <= RoundRank(state) <= 7
    ensures ROUND_MACHINE.CanTransition(state, STAGES[RoundRank(state) - 3])
    ensures RoundRank(STAGES[RoundRank(state) - 3]) == RoundRank(state) + 1
  {
  }

  lemma SameRank(a: RoundState, b: RoundState)
    ensures RoundRank(a) == RoundRank(b) ==> a == b
  {
  }

  lemma StageReady(outcome: Outcome, target: RoundState, files: Files, n: nat, scored: bool)
    requires FilesOf(files, n).evaluation.Some? && FilesOf(files, n).evaluation.value.report.outcome == outcome
    requires scored && 4 <= RoundRank(target) <= RoundRank(StagesRecorded(outcome)) <= 8
    ensures ReadyFor(target, FilesOf(files, n), scored)
  {
  }

  lemma FeedbackEdge(outcome: Outcome, files: Files, n: nat, scored: bool)
    ensures ROUND_MACHINE.CanTransition(StagesRecorded(outcome), FeedbackCommitted)
    ensures FilesOf(files, n).feedback.Some? ==> ReadyFor(FeedbackCommitted, FilesOf(files, n), scored)
  {
  }

  lemma WhenStuckHere(t: Tables, files: Files, n: nat)
    ensures Stuck(View(t, files, n)) <==>
              && n in t.rounds && t.rounds[n].state == ProfileFinished && FilesOf(files, n).evaluation.Some?
              && LastStage(FilesOf(files, n).evaluation.value.report.outcome).BenchmarkFinished?
  {
  }

  lemma OnlyRequestHasRankTwo(state: RoundState)
    ensures RoundRank(state) >= 2 && !state.ModelRequestSent? ==> RoundRank(state) >= 3
  {
  }

  // ---------- the final files ----------

  lemma FinalFacts(cfg: Config, t: Tables, files: Files, past: seq<Record>)
    requires Inv(cfg, t, files, past)
    ensures t.task.Some? && FinalInv(cfg, past, t.task.value, files.task, View(t, files, BestRound(past)))
    ensures |past| <= t.task.value.currentRound <= cfg.rounds
  {
    hide RoundInv, BestInv, CandidatesInv, FinalInv, IsRecord;
  }

  lemma GatedHasBest(cfg: Config, past: seq<Record>, files: TaskFiles)
    requires Gated(cfg, past, files)
    ensures OnlineBest(past).Some? && files.finalEvaluation.Some? && files.bestCandidate.Some? && files.finalResult.Some?
  {
    hide OnlineBest;
  }

  lemma TaskEdges()
    ensures TASK_MACHINE.CanTransition(RoundsRunning, SelectBestCandidate)
    ensures TASK_MACHINE.CanTransition(RoundsRunning, TaskFailed)
    ensures TASK_MACHINE.CanTransition(SelectBestCandidate, HiddenCorrectnessTest)
    ensures TASK_MACHINE.CanTransition(HiddenCorrectnessTest, FinalBenchmark)
    ensures TASK_MACHINE.CanTransition(HiddenCorrectnessTest, TaskFailed)
    ensures TASK_MACHINE.CanTransition(FinalBenchmark, FinalFullProfile)
    ensures TASK_MACHINE.CanTransition(FinalBenchmark, TaskFinished)
    ensures TASK_MACHINE.CanTransition(FinalBenchmark, TaskFailed)
    ensures TASK_MACHINE.CanTransition(FinalFullProfile, TaskFinished)
    ensures TASK_MACHINE.CanTransition(FinalFullProfile, TaskFailed)
  {
  }

  lemma CountNone()
    ensures Count([], Repair) == 0 && Count([], Optimization) == 0
  {
  }

  lemma CountNext(plans: seq<Plan>, i: nat)
    requires i < |plans|
    ensures Count(plans[..i + 1], Repair) == Count(plans[..i], Repair) + if plans[i].phase.Repair? then 1 else 0
    ensures Count(plans[..i + 1], Optimization)
         == Count(plans[..i], Optimization) + if plans[i].phase.Optimization? then 1 else 0
  {
    assert plans[..i + 1][..i] == plans[..i];
  }

  /** Between rounds and gates BEST is the incumbent, whose row and
      source are in place. */
  lemma SelectedCandidate(cfg: Config, t: Tables, files: Files, past: seq<Record>)
    requires Inv(cfg, t, files, past) && t.task.Some? && t.task.value.currentRound == |past|
    ensures FilesOf(files, |past| + 1).feedback.None? && !IsCurrent(t, past, |past| + 1)
    ensures t.task.value.best == IdOf(OnlineBest(past))
    ensures var best := OnlineBest(past);
            best.Some? ==>
              var n := BestRound(past);
              && RowOf(t, best).Some? && SameUpToHidden(RowOf(t, best).value, best.value)
              && RowOf(t, best).value.candidateId == best.value.candidateId
              && 1 <= n <= |past| && n == RowOf(t, best).value.roundNumber
              && FilesOf(files, n).candidate == Some(best.value.candidateId.source)
              && FilesOf(files, n).evaluation.Some?
              && FilesOf(files, n).evaluation.value.report.score == best.value
  {
    hide Inv, OnlineBest, Selected;
    assert past[..|past|] == past;
    if FilesOf(files, |past| + 1).feedback.Some? {
      CurrentFeedback(cfg, t, files, past);
    }
    BestBeforeFeedback(cfg, t, files, past);
    BestIsStored(cfg, t, files, past, |past|);
  }

  lemma FlaggedScore(row: CandidateScore, flagged: CandidateScore, best: CandidateScore)
    requires SameUpToHidden(row, best) && best.Valid()
    requires flagged == row.(hiddenCorrectnessPassed := flagged.hiddenCorrectnessPassed)
    ensures SameUpToHidden(flagged, best) && flagged.Valid()
  {
  }

  lemma ScoredViewOnly(v: RoundView, score: CandidateScore)
    ensures v.(score := Some(score)).score == Some(score)
  {
  }

  lemma FinalIsGated(cfg: Config, past: seq<Record>, report: Report, final: FinalResult)
    requires final == FinalResult(GateOf(cfg, report).0, Some(report.score.candidateId), Some(GateOf(cfg, report).1),
                                  Some(report), Count(PlansOf(past), Repair), Count(PlansOf(past), Optimization))
    ensures final == GatedResult(cfg, past, report)
  {
  }

  // ---------- around the rounds of a run ----------

  lemma Untouched(cfg: Config, t: Tables, files: Files, past: seq<Record>)
    requires Inv(cfg, t, files, past) || (NothingDurable(t, files) && past == [])
    requires t.task.None?
    ensures NothingDurable(t, files) && past == []
  {
    hide RoundInv, BestInv, FinalInv, CandidatesInv, IsRecord;
  }

  lemma Created(cfg: Config, t: Tables, files: Files, past: seq<Record>)
    requires Inv(cfg, t, files, past) || (NothingDurable(t, files) && past == [])
    requires t.task.Some?
    ensures Inv(cfg, t, files, past)
    ensures Attempt(t, CreatingTask(cfg.spec)).Ok? && Apply(t, CreatingTask(cfg.spec)) == t
  {
    hide RoundInv, BestInv, FinalInv, CandidatesInv, IsRecord;
  }

  lemma StartOfTask(cfg: Config, t: Tables, files: Files, past: seq<Record>)
    requires Inv(cfg, t, files, past) && t.task.Some? && t.task.value.state.TaskCreated?
    ensures past == [] && t.task.value.currentRound == 0
    ensures TASK_MACHINE.CanTransition(TaskCreated, RoundsRunning)
    ensures FinalInv(cfg, past, t.task.value.(state := RoundsRunning), files.task, View(t, files, BestRound(past)))
  {
    FinalFacts(cfg, t, files, past);
  }

  lemma NoRounds(past: seq<Record>)
    ensures CountersAgree(ReadyFlags(past[..0]), 0, 0, 0, 0, false) && NoRetry(past[..0])
  {
    assert past[..0] == [];
  }

  /** A round may be opened only while the search is on and nothing needs a retry. */
  lemma BeforeRound(cfg: Config, t: Tables, files: Files, past: seq<Record>, n: nat)
    requires Inv(cfg, t, files, past) && t.task.Some? && !Terminal(t) && !t.task.value.state.TaskCreated?
    requires 1 <= n <= cfg.rounds && n - 1 <= |past| && NoRetry(past[..n - 1])
    ensures n == |past| + 1 ==> Searching(t) && NoRetry(past)
  {
    hide NoRetry, OnlineBest, Gated, GatedResult;
    FinalFacts(cfg, t, files, past);
    assert n == |past| + 1 ==> past[..n - 1] == past;
  }

  lemma LastReady(past: seq<Record>, m: nat)
    requires m <= |past|
    ensures |ReadyFlags(past[..m])| == m
    ensures m > 0 ==> ReadyFlags(past[..m])[m - 1] == SeedReady(past[m - 1].evaluation.report.outcome)
  {
  }

  /** Only the last finished round can require a retry. */
  lemma AfterRound(cfg: Config, t: Tables, files: Files, past: seq<Record>, n: nat)
    requires Inv(cfg, t, files, past) && 1 <= n <= |past| && NoRetry(past[..n - 1])
    ensures n == |past| || !InfrastructureRetry(past[n - 1].evaluation.report.outcome)
    ensures !InfrastructureRetry(past[n - 1].evaluation.report.outcome) ==> NoRetry(past[..n])
  {
    hide RoundInv, BestInv, FinalInv, CandidatesInv, IsRecord, InfrastructureRetry;
    if n < |past| {
      assert past[..|past| - 1][n - 1] == past[n - 1];
    }
    assert past[..n] == past[..n - 1] + [past[n - 1]];
  }

  lemma CountersAdvance(past: seq<Record>, n: nat, repairCount: nat, optimizationCount: nat,
                        activeOptimization: nat, repairAttempt: nat, seedReady: bool)
    requires 1 <= n <= |past|
    requires var before := ReadyFlags(past[..n - 1]);
             && seedReady == ((true in before) || SeedReady(past[n - 1].evaluation.report.outcome))
             && (true !in before ==> repairCount == n)
             && optimizationCount == activeOptimization == Successes(before)
             && repairAttempt == PlanAfter(before).attempt
    ensures CountersAgree(ReadyFlags(past[..n]), repairCount, optimizationCount, activeOptimization,
                          repairAttempt, seedReady)
  {
    var before, ready := ReadyFlags(past[..n - 1]), ReadyFlags(past[..n]);
    assert ready[..n - 1] == before;
    assert ready == before + [SeedReady(past[n - 1].evaluation.report.outcome)];
  }

  lemma AfterAllRounds(cfg: Config, t: Tables, files: Files, past: seq<Record>)
    requires Inv(cfg, t, files, past) && |past| >= cfg.rounds && NoRetry(past[..cfg.rounds])
    ensures Complete(cfg, past) && t.task.Some? && t.task.value.currentRound == |past|
  {
    FinalFacts(cfg, t, files, past);
    assert past[..cfg.rounds] == past;
  }

  lemma FinishedRank(cfg: Config, t: Tables, files: Files, past: seq<Record>, n: nat)
    requires Inv(cfg, t, files, past) && 1 <= n <= |past|+ 1
    ensures n <= |past| ==>
              && n in t.rounds && RoundRank(t.rounds[n].state) == 10
              && FilesOf(files, n).evaluation.Some? && FilesOf(files, n).feedback.Some?
  {
    hide Inv;
    OpenRounds(cfg, t, files, past, n);
    if n <= |past| {
      RecordRead(cfg, t, files, past, n);
    }
  }

  /** Only an open round of a running search is stuck. */
  lemma StuckIsOpen(cfg: Config, t: Tables, files: Files, past: seq<Record>)
    requires Inv(cfg, t, files, past)
    ensures t.task.Some?
    ensures Stuck(View(t, files, |past| + 1)) ==>
              |past| + 1 <= cfg.rounds && t.task.value.state.RoundsRunning?
  {
    hide Inv, LastStage;
    WhenStuckHere(t, files, |past| + 1);
    OpenRounds(cfg, t, files, past, |past| + 1);
  }

  // ---------- a last round that requires a retry ----------

  /** The last created round has an evaluation that requires an infrastructure retry. */
  ghost predicate AwaitsRetry(t: Tables, files: Files) {
    && t.task.Some? && t.task.value.currentRound >= 1
    && FilesOf(files, t.task.value.currentRound).evaluation.Some?
    && InfrastructureRetry(FilesOf(files, t.task.value.currentRound).evaluation.value.report.outcome)
  }

  lemma RetryBlocks(cfg: Config, t: Tables, files: Files, past: seq<Record>)
    requires Inv(cfg, t, files, past) && AwaitsRetry(t, files)
    ensures Searching(t) && t.task.value.currentRound <= cfg.rounds
    ensures |past| <= t.task.value.currentRound <= |past| + 1
    ensures t.task.value.currentRound == |past| ==> !NoRetry(past)
  {
    hide Inv, OnlineBest, GatedResult, NoCandidateResult, InfrastructureRetry;
    FinalFacts(cfg, t, files, past);
    OpenRounds(cfg, t, files, past, t.task.value.currentRound);
    if t.task.value.currentRound == |past| {
      RecordRead(cfg, t, files, past, |past|);
      assert past[|past| - 1] in past;
    }
  }
}
