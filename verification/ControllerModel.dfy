/** The durable state of one task as the crash-recoverable controller sees it:
    committed artifacts, table rows, and what ties them together at every point
    where the process may die. */
module ControllerModel {
  import opened Wrappers
  import opened JsonValue
  import opened StateMachine
  import opened Scoring
  import opened Trajectory
  import opened ModelResponses
  import opened StateStore

  datatype Config = Config(
    spec: string, rounds: nat, maximumFormatRetries: nat,
    hiddenSeedSet: bool, runForFinalBest: bool, coverageRequired: bool)

  // ---------- evaluations ----------

  datatype StageStatus = Pass | Fail | ModelFailed | Errored | TimedOut | Unavailable | Verified | OtherStatus

  datatype Stage = Stage(passed: bool, status: StageStatus, infrastructureOrigin: bool)

  /** The benchmark's interleaved measurement against the incumbent. */
  datatype Paired = Paired(geomean: Option<real>, minimum: Option<real>, maximumCv: Option<real>)

  /** What the backend measured; a missing stage did not run. */
  datatype Outcome = Outcome(
    unevaluated: bool, source: Option<Stage>, compile: Option<Stage>, correctness: Option<Stage>,
    benchmark: Option<Stage>, paired: Option<Paired>,
    geomeanVsEager: Option<real>, minimumVsEager: Option<real>,
    attribution: Option<Stage>, infrastructureRetry: bool)

  /** A score as its constructor accepts it. */
  type Score = s: CandidateScore | s.Valid()
    witness CandidateScore(CandidateId(1, ""), 1, false, false, false, None, None, None, None, None)

  datatype Report = Report(outcome: Outcome, score: Score)

  /** A committed search evaluation carries the plan of its round. */
  datatype Evaluation = Evaluation(report: Report, plan: Plan)

  predicate PassedStage(stage: Option<Stage>) {
    stage.Some? && (stage.value.passed || stage.value.status.Pass?)
  }

  predicate FailedStage(stage: Option<Stage>) {
    stage.Some? && !PassedStage(stage)
  }

  predicate InfrastructureStage(stage: Option<Stage>) {
    stage.Some? && (stage.value.status in {Errored, TimedOut, Unavailable} || stage.value.infrastructureOrigin)
  }

  predicate InfrastructureRetry(o: Outcome) {
    || o.infrastructureRetry
    || InfrastructureStage(o.source) || InfrastructureStage(o.compile)
    || InfrastructureStage(o.correctness) || InfrastructureStage(o.benchmark)
  }

  predicate ModelUnevaluated(o: Outcome) {
    o.unevaluated || (o.source.Some? && o.source.value.status.ModelFailed?)
  }

  predicate SeedReady(o: Outcome) {
    PassedStage(o.source) && PassedStage(o.compile) && PassedStage(o.correctness)
  }

  /** The state after which no further stage of this outcome is recorded. */
  function LastStage(o: Outcome): RoundState {
    if ModelUnevaluated(o) then SourceValidated
    else if FailedStage(o.source) then SourceValidated
    else if FailedStage(o.compile) then CompileFinished
    else if FailedStage(o.correctness) then CorrectnessFinished
    else if FailedStage(o.benchmark) then BenchmarkFinished
    else ProfileFinished
  }

  // ---------- the online BEST ----------

  predicate Eligible(best: Option<CandidateScore>) {
    best.Some? ==> best.value.Valid() && best.value.IsPubliclyValid()
  }

  /** The paired measurement decides when there is a usable one. */
  function OnlineComparison(report: Report, incumbent: Option<CandidateScore>): Comparison
    requires Eligible(incumbent)
  {
    var fallback := ComparePublicCandidate(report.score, incumbent, PERFORMANCE_TIE_FLOOR).value;
    var o := report.outcome;
    if fallback.decision.Invalid? || fallback.decision.InitialBest? then fallback
    else if o.benchmark.None? || o.paired.None? then fallback
    else
      var geomean, minimum := o.paired.value.geomean, o.paired.value.minimum;
      if geomean.None? || geomean.value <= 0.0 || minimum.None? || minimum.value <= 0.0 then fallback
      else
        var tolerance := Max(PERFORMANCE_TIE_FLOOR, OrZero(o.paired.value.maximumCv));
        Comparison(Classify(geomean.value - 1.0, minimum.value - 1.0, tolerance), tolerance,
                   Some(geomean.value - 1.0), Some(minimum.value - 1.0))
  }

  /** One finished round. */
  datatype Record = Record(response: map<string, Json>, evaluation: Evaluation, feedback: Feedback)

  datatype Feedback = Feedback(
    comparison: Comparison, bestBefore: Option<CandidateId>, bestAfter: Option<CandidateId>)

  function NextBest(best: Option<CandidateScore>, report: Report): (next: Option<CandidateScore>)
    requires Eligible(best)
    ensures Eligible(next)
  {
    if OnlineComparison(report, best).decision.Selects() then Some(report.score) else best
  }

  /** The incumbent after the given finished rounds. */
  function OnlineBest(past: seq<Record>): (best: Option<CandidateScore>)
    ensures Eligible(best)
    decreases |past|
  {
    if past == [] then None
    else NextBest(OnlineBest(past[..|past| - 1]), past[|past| - 1].evaluation.report)
  }

  function IdOf(best: Option<CandidateScore>): Option<CandidateId> {
    if best.Some? then Some(best.value.candidateId) else None
  }

  function Scores(past: seq<Record>): (scores: seq<CandidateScore>)
    ensures |scores| == |past| && forall i | 0 <= i < |past| :: scores[i] == past[i].evaluation.report.score
    ensures AllValid(scores)
  {
    seq(|past|, i requires 0 <= i < |past| => var score: CandidateScore := past[i].evaluation.report.score; score)
  }

  /** The incumbent a replay over the scores alone arrives at. */
  function UnpairedBest(past: seq<Record>): (best: Option<CandidateScore>)
    ensures Eligible(best)
  {
    Incumbent(Bests(Scores(past)))
  }

  /** The feedback of a round whose BEST decision and feedback committed together. */
  function DirectFeedback(before: seq<Record>, report: Report): Feedback {
    var best := OnlineBest(before);
    Feedback(OnlineComparison(report, best), IdOf(best), IdOf(NextBest(best, report)))
  }

  /** The feedback written after a crash that left the new BEST selected: the
      selection is not before the round, so the incumbent is replayed from scores. */
  function RecoveredFeedback(before: seq<Record>, report: Report): Feedback {
    var best := UnpairedBest(before);
    Feedback(OnlineComparison(report, best), IdOf(best), Some(report.score.candidateId))
  }

  predicate Selected(before: seq<Record>, report: Report) {
    OnlineComparison(report, OnlineBest(before)).decision.Selects()
  }

  predicate FeedbackOk(before: seq<Record>, report: Report, feedback: Feedback) {
    || feedback == DirectFeedback(before, report)
    || (Selected(before, report) && feedback == RecoveredFeedback(before, report))
  }

  // ---------- the final gate ----------

  datatype FinalStatus =
    | Passed | PassedProfileUnverified
    | FailedFinalInfrastructure | FailedHiddenCorrectness | FailedFinalBenchmark | FailedNoValidCandidate
  {
    predicate IsPassed() { Passed? || PassedProfileUnverified? }
  }

  predicate Positive(x: Option<real>) {
    x.Some? && x.value > 0.0
  }

  function FinalGate(o: Outcome, coverageRequired: bool): (FinalStatus, bool) {
    if InfrastructureRetry(o) then (FailedFinalInfrastructure, PassedStage(o.correctness))
    else if !PassedStage(o.correctness) then (FailedHiddenCorrectness, false)
    else if !PassedStage(o.benchmark) then (FailedFinalBenchmark, true)
    else if !Positive(o.geomeanVsEager) || !Positive(o.minimumVsEager) then (FailedFinalBenchmark, true)
    else if !coverageRequired then (Passed, true)
    else if o.attribution.Some? && (o.attribution.value.status.Verified? || PassedStage(o.attribution)) then (Passed, true)
    else (PassedProfileUnverified, true)
  }

  datatype FinalResult = FinalResult(
    status: FinalStatus, best: Option<CandidateId>, hiddenPassed: Option<bool>,
    finalEvaluation: Option<Report>, repairRounds: nat, optimizationRounds: nat)

  function PlansOf(past: seq<Record>): (plans: seq<Plan>)
    ensures |plans| == |past| && forall i | 0 <= i < |past| :: plans[i] == past[i].evaluation.plan
  {
    seq(|past|, i requires 0 <= i < |past| => past[i].evaluation.plan)
  }

  function NoCandidateResult(past: seq<Record>): FinalResult {
    FinalResult(FailedNoValidCandidate, None, None, None,
                Count(PlansOf(past), Repair), Count(PlansOf(past), Optimization))
  }

  function GateOf(cfg: Config, report: Report): (FinalStatus, bool) {
    FinalGate(report.outcome, cfg.coverageRequired && cfg.runForFinalBest)
  }

  function GatedResult(cfg: Config, past: seq<Record>, report: Report): FinalResult {
    FinalResult(GateOf(cfg, report).0, Some(report.score.candidateId), Some(GateOf(cfg, report).1), Some(report),
                Count(PlansOf(past), Repair), Count(PlansOf(past), Optimization))
  }

  // ---------- artifacts ----------

  /** Everything the prompt text is computed from. */
  datatype Prompt = Prompt(round: nat, plan: Plan, best: Option<CandidateId>, history: seq<Record>)

  /** The files of one round's directory; a committed file never changes. */
  datatype RoundFiles = RoundFiles(
    prompt: Option<Prompt>, exchange: Option<map<string, Json>>,
    failureExchange: Option<ResponseError>, modelFailure: Option<ResponseError>,
    response: Option<map<string, Json>>, candidate: Option<string>,
    evaluation: Option<Evaluation>, feedback: Option<Feedback>)

  datatype TaskFiles = TaskFiles(
    bestCandidate: Option<string>, finalEvaluation: Option<Report>, finalResult: Option<FinalResult>)

  datatype Files = Files(rounds: map<int, RoundFiles>, task: TaskFiles)

  const NO_FILES := RoundFiles(None, None, None, None, None, None, None, None)

  function FilesOf(files: Files, round: int): RoundFiles {
    if round in files.rounds then files.rounds[round] else NO_FILES
  }

  datatype Artifact =
    | PromptFile(round: nat, prompt: Prompt)
    | ExchangeFile(round: nat, exchange: map<string, Json>)
    | FailureExchangeFile(round: nat, error: ResponseError)
    | ModelFailureFile(round: nat, error: ResponseError)
    | ResponseFile(round: nat, response: map<string, Json>)
    | CandidateFile(round: nat, code: string)
    | EvaluationFile(round: nat, evaluation: Evaluation)
    | FeedbackFile(round: nat, feedback: Feedback)
    | BestCandidateFile(code: string)
    | FinalEvaluationFile(report: Report)
    | FinalResultFile(result: FinalResult)

  predicate IsRoundArtifact(a: Artifact) {
    !a.BestCandidateFile? && !a.FinalEvaluationFile? && !a.FinalResultFile?
  }

  /** Is there a file where this one belongs? */
  predicate Exists(files: Files, a: Artifact) {
    match a
    case PromptFile(n, _) => FilesOf(files, n).prompt.Some?
    case ExchangeFile(n, _) => FilesOf(files, n).exchange.Some?
    case FailureExchangeFile(n, _) => FilesOf(files, n).failureExchange.Some?
    case ModelFailureFile(n, _) => FilesOf(files, n).modelFailure.Some?
    case ResponseFile(n, _) => FilesOf(files, n).response.Some?
    case CandidateFile(n, _) => FilesOf(files, n).candidate.Some?
    case EvaluationFile(n, _) => FilesOf(files, n).evaluation.Some?
    case FeedbackFile(n, _) => FilesOf(files, n).feedback.Some?
    case BestCandidateFile(_) => files.task.bestCandidate.Some?
    case FinalEvaluationFile(_) => files.task.finalEvaluation.Some?
    case FinalResultFile(_) => files.task.finalResult.Some?
  }

  /** The round's directory with the file in it. */
  function InRound(f: RoundFiles, a: Artifact): RoundFiles {
    match a
    case PromptFile(_, v) => f.(prompt := Some(v))
    case ExchangeFile(_, v) => f.(exchange := Some(v))
    case FailureExchangeFile(_, v) => f.(failureExchange := Some(v))
    case ModelFailureFile(_, v) => f.(modelFailure := Some(v))
    case ResponseFile(_, v) => f.(response := Some(v))
    case CandidateFile(_, v) => f.(candidate := Some(v))
    case EvaluationFile(_, v) => f.(evaluation := Some(v))
    case FeedbackFile(_, v) => f.(feedback := Some(v))
    case _ => f
  }

  /** The task's directory with the file in it. */
  function InTask(f: TaskFiles, a: Artifact): TaskFiles {
    match a
    case BestCandidateFile(v) => f.(bestCandidate := Some(v))
    case FinalEvaluationFile(v) => f.(finalEvaluation := Some(v))
    case FinalResultFile(v) => f.(finalResult := Some(v))
    case _ => f
  }

  function WithArtifact(files: Files, a: Artifact): Files {
    if IsRoundArtifact(a) then files.(rounds := files.rounds[a.round := InRound(FilesOf(files, a.round), a)])
    else files.(task := InTask(files.task, a))
  }

  /** The very same file is there. */
  predicate AlreadyCommitted(files: Files, a: Artifact) {
    if IsRoundArtifact(a) then InRound(FilesOf(files, a.round), a) == FilesOf(files, a.round)
    else InTask(files.task, a) == files.task
  }

  /** Create if absent; the same content again is accepted, other content is not. */
  predicate ConflictsWith(files: Files, a: Artifact) {
    Exists(files, a) && !AlreadyCommitted(files, a)
  }

  // ---------- responses ----------

  /** The stand-in response of a round whose model output never validated. */
  function SyntheticResponse(round: int): map<string, Json> {
    map["status" := Str("candidate"), "round" := Int(round),
        "change_summary" := Arr([]), "expected_effect" := Arr([]),
        "assumptions" := Arr([Str(SYNTHETIC_NOTE)]),
        "code" := Str(SYNTHETIC_CODE)]
  }

  const SYNTHETIC_NOTE := "Model output failed " + "structured-response validation."

  const SYNTHETIC_CODE :=
    "# Invalid model response; " + "this round intentionally " + "fails source validation.\n"

  function ParsedResponse(round: int, fields: map<string, Json>): Result<ModelResponse, ResponseError> {
    Validate(Obj(fields), Some(round), true)
  }

  predicate Readable(round: int, fields: map<string, Json>) {
    ParsedResponse(round, fields).Ok?
  }

  function CodeOf(round: int, fields: map<string, Json>): string {
    if Readable(round, fields) then ParsedResponse(round, fields).value.code else ""
  }

  /** The evaluation a round without a model response gets. */
  function FailureReport(id: CandidateId): Report
    requires id.round >= 1
  {
    Report(Outcome(true, Some(Stage(false, ModelFailed, false)), None, None, None, None, None, None,
                   Some(Stage(false, Unavailable, false)), false),
           CandidateScore(id, id.round, false, false, false, None, None, None, None, None))
  }

  // ---------- one round ----------

  /** All that is durable about one round. */
  datatype RoundView = RoundView(
    row: Option<RoundRow>, files: RoundFiles, registered: Option<CandidateRow>, score: Option<CandidateScore>)

  function Lookup<K, V>(table: map<K, V>, key: K): Option<V> {
    if key in table then Some(table[key]) else None
  }

  function CandidateOf(round: int, files: RoundFiles): CandidateId {
    CandidateId(round, if files.candidate.Some? then files.candidate.value else "")
  }

  function View(t: Tables, files: Files, round: int): RoundView {
    var f := FilesOf(files, round);
    RoundView(if round in t.rounds then Some(t.rounds[round]) else None, f,
              if f.candidate.Some? then Lookup(t.candidates, CandidateOf(round, f)) else None,
              if f.candidate.Some? then Lookup(t.scores, CandidateOf(round, f)) else None)
  }

  function ReadyFlags(past: seq<Record>): (ready: seq<bool>)
    ensures |ready| == |past|
    ensures forall i | 0 <= i < |past| :: ready[i] == SeedReady(past[i].evaluation.report.outcome)
  {
    seq(|past|, i requires 0 <= i < |past| => SeedReady(past[i].evaluation.report.outcome))
  }

  function PlanFor(before: seq<Record>): Plan {
    PlanAfter(ReadyFlags(before))
  }

  function PromptFor(round: nat, before: seq<Record>): Prompt {
    Prompt(round, PlanFor(before), if round == 1 then None else IdOf(OnlineBest(before)), before)
  }

  /** Exactly one of a validated exchange and a failed one leads to the response. */
  ghost predicate ResponseInv(round: nat, rank: nat, f: RoundFiles) {
    && (rank < 2 ==> f.exchange.None? && f.failureExchange.None?)
    && (rank >= 3 ==> f.response.Some?)
    && (f.response.Some? ==> Readable(round, f.response.value))
    && (f.exchange.None? && f.failureExchange.None? ==> f.modelFailure.None? && f.response.None?)
    && (f.exchange.Some? ==>
          && f.failureExchange.None? && f.modelFailure.None?
          && Readable(round, f.exchange.value)
          && ParsedResponse(round, f.exchange.value).value.ToDict() == f.exchange.value
          && (f.response.Some? ==> f.response == f.exchange))
    && (f.failureExchange.Some? ==>
          && (f.modelFailure.Some? ==> f.modelFailure == f.failureExchange)
          && (f.response.Some? ==> f.modelFailure.Some? && f.response.value == SyntheticResponse(round)))
  }

  ghost predicate CandidateInv(round: nat, rank: nat, v: RoundView) {
    var f := v.files;
    && (f.candidate.Some? ==> rank >= 3 && f.response.Some? && f.candidate.value == CodeOf(round, f.response.value))
    && (v.registered.Some? ==>
          f.candidate.Some? && f.response.Some?
          && v.registered.value == CandidateRow(round, f.candidate.value, f.response.value))
  }

  /** Scores are equal but for the outcome of the hidden test. */
  predicate SameUpToHidden(a: CandidateScore, b: CandidateScore) {
    a.(hiddenCorrectnessPassed := b.hiddenCorrectnessPassed) == b
  }

  ghost predicate EvaluationInv(round: nat, before: seq<Record>, v: RoundView, searching: bool) {
    var f := v.files;
    && (f.evaluation.Some? ==>
          var e := f.evaluation.value;
          && v.registered.Some?
          && e.plan == PlanFor(before)
          && e.report.score.candidateId == CandidateOf(round, f) && e.report.score.roundNumber == round
          && (f.modelFailure.Some? ==> round >= 1 && e.report == FailureReport(CandidateOf(round, f))))
    && (v.score.Some? ==>
          && f.evaluation.Some?
          && SameUpToHidden(v.score.value, f.evaluation.value.report.score)
          && (searching ==> v.score.value == f.evaluation.value.report.score))
  }

  /** The state reached once the stages of an outcome are recorded. */
  function StagesRecorded(o: Outcome): RoundState {
    if LastStage(o).BenchmarkFinished? then ProfileFinished else LastStage(o)
  }

  ghost predicate FeedbackInv(before: seq<Record>, rank: nat, v: RoundView) {
    var f := v.files;
    && (rank >= 4 ==>
          && v.score.Some? && f.evaluation.Some?
          && var o := f.evaluation.value.report.outcome;
             && (rank <= 8 ==> rank <= RoundRank(StagesRecorded(o)))
             && (f.feedback.Some? ==> rank >= RoundRank(StagesRecorded(o))))
    && (rank < 4 ==> f.feedback.None?)
    && (rank >= 9 ==> f.feedback.Some?)
    && (f.feedback.Some? ==>
          f.evaluation.Some? && FeedbackOk(before, f.evaluation.value.report, f.feedback.value))
  }

  ghost predicate RoundInv(round: nat, before: seq<Record>, v: RoundView, searching: bool) {
    v.row.Some? &&
    var rank := RoundRank(v.row.value.state);
    && (v.files.prompt.Some? ==> v.files.prompt.value == PromptFor(round, before))
    && (rank >= 1 ==> v.files.prompt.Some?)
    && ResponseInv(round, rank, v.files)
    && CandidateInv(round, rank, v)
    && EvaluationInv(round, before, v, searching)
    && FeedbackInv(before, rank, v)
  }

  /** The round is finished, and the record is what it left. */
  ghost predicate IsRecord(v: RoundView, r: Record) {
    && v.row.Some? && v.row.value.state == RoundFinished
    && v.files.response == Some(r.response)
    && v.files.evaluation == Some(r.evaluation)
    && v.files.feedback == Some(r.feedback)
  }

  /** The one crash point a round does not survive: its benchmark failed, and
      the state that stands for a finished profile is written. */
  predicate Stuck(v: RoundView) {
    && v.row.Some? && v.row.value.state == ProfileFinished
    && v.files.evaluation.Some? && LastStage(v.files.evaluation.value.report.outcome).BenchmarkFinished?
  }

  // ---------- the whole task ----------

  /** The selected BEST follows the last committed feedback, or already names the
      candidate of the one round that is scored but has no feedback yet. */
  ghost predicate BestInv(past: seq<Record>, current: RoundView, reference: Option<CandidateId>) {
    var best := OnlineBest(past);
    if current.files.feedback.Some? then reference == current.files.feedback.value.bestAfter
    else
      || reference == IdOf(best)
      || (current.score.Some? && current.files.evaluation.Some?
          && Selected(past, current.files.evaluation.value.report)
          && reference == Some(current.files.evaluation.value.report.score.candidateId))
  }

  ghost predicate NoRetry(past: seq<Record>) {
    forall r | r in past :: !InfrastructureRetry(r.evaluation.report.outcome)
  }

  /** All configured rounds are finished and evaluated. */
  ghost predicate Complete(cfg: Config, past: seq<Record>) {
    |past| == cfg.rounds && NoRetry(past)
  }

  ghost predicate FinalInv(cfg: Config, past: seq<Record>, row: TaskRow, files: TaskFiles, bestView: RoundView) {
    var best := OnlineBest(past);
    match row.state
    case TaskCreated =>
      past == [] && row.currentRound == 0 && row.best == None && files == TaskFiles(None, None, None)
    case RoundsRunning =>
      && files.bestCandidate.None? && files.finalEvaluation.None?
      && (files.finalResult.Some? ==>
            Complete(cfg, past) && best.None? && files.finalResult.value == NoCandidateResult(past))
    case SelectBestCandidate =>
      && Complete(cfg, past) && best.Some? && cfg.rounds == row.currentRound
      && (files.bestCandidate.Some? ==> files.bestCandidate.value == best.value.candidateId.source)
      && files.finalEvaluation.None? && files.finalResult.None?
    case HiddenCorrectnessTest =>
      && Complete(cfg, past) && best.Some? && cfg.rounds == row.currentRound
      && files.bestCandidate == Some(best.value.candidateId.source)
      && (files.finalEvaluation.Some? ==>
            files.finalEvaluation.value.score.candidateId == best.value.candidateId)
      && (files.finalResult.Some? ==>
            && files.finalEvaluation.Some?
            && files.finalResult.value == GatedResult(cfg, past, files.finalEvaluation.value))
    case TaskFailed =>
      && Complete(cfg, past) && cfg.rounds == row.currentRound
      && (best.None? ==> files == TaskFiles(None, None, Some(NoCandidateResult(past))))
      && (best.Some? ==> Gated(cfg, past, files) && !files.finalResult.value.status.IsPassed()
                         && HiddenFlagStored(files, bestView))
    case TaskFinished =>
      && Complete(cfg, past) && best.Some? && cfg.rounds == row.currentRound
      && Gated(cfg, past, files) && files.finalResult.value.status.IsPassed()
      && HiddenFlagStored(files, bestView)
    case FinalBenchmark =>
      && Complete(cfg, past) && best.Some? && cfg.rounds == row.currentRound
      && Gated(cfg, past, files) && !files.finalResult.value.status.FailedHiddenCorrectness?
    case FinalFullProfile =>
      && Complete(cfg, past) && best.Some? && cfg.rounds == row.currentRound && cfg.runForFinalBest
      && Gated(cfg, past, files) && !files.finalResult.value.status.FailedHiddenCorrectness?
      && !files.finalResult.value.status.FailedFinalBenchmark?
  }

  /** The final files of a gated task agree with the selected candidate. */
  ghost predicate Gated(cfg: Config, past: seq<Record>, files: TaskFiles) {
    var best := OnlineBest(past);
    && best.Some?
    && files.bestCandidate == Some(best.value.candidateId.source)
    && files.finalEvaluation.Some?
    && files.finalEvaluation.value.score.candidateId == best.value.candidateId
    && files.finalResult == Some(GatedResult(cfg, past, files.finalEvaluation.value))
  }

  ghost predicate HiddenFlagStored(files: TaskFiles, bestView: RoundView) {
    && files.finalResult.Some? && bestView.score.Some?
    && bestView.score.value.hiddenCorrectnessPassed == files.finalResult.value.hiddenPassed
  }

  function BestRound(past: seq<Record>): int {
    if OnlineBest(past).Some? then OnlineBest(past).value.candidateId.round else 0
  }

  /** Holds whenever the process may die: before and after every durable write. */
  ghost predicate Inv(cfg: Config, t: Tables, files: Files, past: seq<Record>) {
    && t.task.Some?
    && var row := t.task.value;
    && var k := row.currentRound;
    && row.spec == cfg.spec
    && |past| <= k <= |past| + 1 && k <= cfg.rounds
    && (forall n :: n in t.rounds <==> 1 <= n <= k)
    && (forall n | !(1 <= n <= k) :: FilesOf(files, n) == NO_FILES)
    && CandidatesInv(t, files)
    && (forall n: nat | 1 <= n <= k :: RoundInv(n, past[..n - 1], View(t, files, n), row.state.RoundsRunning?))
    && (forall n: nat | 1 <= n <= |past| :: IsRecord(View(t, files, n), past[n - 1]))
    && (k == |past| + 1 ==> row.state.RoundsRunning? && t.rounds[k].state != RoundFinished && NoRetry(past))
    && (past != [] ==> NoRetry(past[..|past| - 1]))
    && BestInv(past, View(t, files, |past| + 1), row.best)
    && FinalInv(cfg, past, row, files.task, View(t, files, BestRound(past)))
  }

  /** Every registered candidate and every score belongs to its round's source. */
  ghost predicate CandidatesInv(t: Tables, files: Files) {
    && (forall id | id in t.candidates :: FilesOf(files, id.round).candidate == Some(id.source))
    && (forall id | id in t.scores :: id in t.candidates)
  }
}
