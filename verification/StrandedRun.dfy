/** One concrete run, from nothing durable to the state no resume gets out of: the
    benchmark of its round fails, and the process dies behind the state that stands
    for a finished profile. */
module StrandedRun {
  import opened Wrappers
  import opened JsonValue
  import opened StateMachine
  import opened Scoring
  import opened Trajectory
  import opened ModelResponses
  import opened StateStore
  import opened ControllerModel
  import opened ControllerSteps
  import opened ControllerTask
  import opened ControllerFacts
  import opened ControllerTheorems
  import opened DecisionRecovery

  // ---------- durable effects ----------

  /** One transaction or one file. */
  datatype Effect = Row(write: Write) | File(artifact: Artifact)

  datatype Durable = Durable(tables: Tables, files: Files)

  const NOTHING := Durable(EMPTY_TABLES, Files(map[], TaskFiles(None, None, None)))

  predicate Succeeds(s: Durable, e: Effect) {
    match e
    case Row(write) => Attempt(s.tables, write).Ok?
    case File(artifact) => !ConflictsWith(s.files, artifact)
  }

  function After(s: Durable, e: Effect): Durable {
    match e
    case Row(write) => s.(tables := Apply(s.tables, write))
    case File(artifact) => s.(files := WithArtifact(s.files, artifact))
  }

  function AfterAll(effects: seq<Effect>): Durable
    decreases |effects|
  {
    if effects == [] then NOTHING else After(AfterAll(effects[..|effects| - 1]), effects[|effects| - 1])
  }

  predicate AllSucceed(effects: seq<Effect>)
    decreases |effects|
  {
    effects != [] ==>
      var front := effects[..|effects| - 1];
      AllSucceed(front) && Succeeds(AfterAll(front), effects[|effects| - 1])
  }

  // ---------- the run ----------

  const CONFIG := Config("task", 1, 0, false, false, false)

  const CANDIDATE := CandidateId(1, EXAMPLE_CODE)

  const PASSED := Some(Stage(true, Pass, false))

  /** Compiled and correct, but the benchmark failed. */
  function FailedBenchmark(): Evaluation {
    Evaluation(
      Report(Outcome(false, PASSED, PASSED, PASSED, Some(Stage(false, Fail, false)), None, None, None, None, false),
             CandidateScore(CANDIDATE, 1, true, true, true, None, None, None, None, None)),
      PlanFor([]))
  }

  function Run(): seq<Effect> {
    [Row(CreatingTask("task")), Row(MovingTask(RoundsRunning, None)), Row(CreatingRound(1)),
     File(PromptFile(1, PromptFor(1, []))),
     Row(MovingRound(1, PromptCommitted, Some(1))), Row(MovingRound(1, ModelRequestSent, Some(2))),
     File(ExchangeFile(1, ExampleResponse(1))), File(ResponseFile(1, ExampleResponse(1))),
     Row(MovingRound(1, ModelResponseCommitted, Some(3))),
     File(CandidateFile(1, EXAMPLE_CODE)),
     Row(Registering(CANDIDATE, CandidateRow(1, EXAMPLE_CODE, ExampleResponse(1)))),
     File(EvaluationFile(1, FailedBenchmark())),
     Row(StateStore.Write.Scoring(FailedBenchmark().report.score)),
     Row(MovingRound(1, SourceValidated, Some(4))), Row(MovingRound(1, CompileFinished, Some(5))),
     Row(MovingRound(1, CorrectnessFinished, Some(6))), Row(MovingRound(1, BenchmarkFinished, Some(7))),
     Row(MovingRound(1, ProfileFinished, Some(8)))]
  }

  /** The first k effects of the run succeed and lead here. */
  predicate At(k: nat, s: Durable) {
    k <= |Run()| && AllSucceed(Run()[..k]) && AfterAll(Run()[..k]) == s
  }

  lemma Next(k: nat, s: Durable)
    requires At(k, s) && k < |Run()| && Succeeds(s, Run()[k])
    ensures At(k + 1, After(s, Run()[k]))
  {
    hide Run;
    assert Run()[..k + 1][..k] == Run()[..k];
  }

  /** The first round of a task is under way, in this state with these files. */
  ghost predicate UnderWay(s: Durable, row: RoundRow, files: RoundFiles) {
    && Inv(CONFIG, s.tables, s.files, []) && IsCurrent(s.tables, [], 1)
    && Lookup(s.tables.rounds, 1) == Some(row) && FilesOf(s.files, 1) == files
  }

  lemma Move(k: nat, s: Durable, row: RoundRow, files: RoundFiles, target: RoundState) returns (u: Durable)
    requires At(k, s) && UnderWay(s, row, files)
    requires k < |Run()| && Run()[k] == Row(MovingRound(1, target, Some(row.version)))
    requires ROUND_MACHINE.CanTransition(row.state, target)
    requires ReadyFor(target, files, View(s.tables, s.files, 1).score.Some?)
    ensures At(k + 1, u) && UnderWay(u, RoundRow(target, row.version + 1), files)
    ensures View(u.tables, u.files, 1).score == View(s.tables, s.files, 1).score
  {
    hide Inv, At, Run, ReadyFor, StrictStateMachine.CanTransition;
    MoveCurrent(CONFIG, s.tables, s.files, [], 1, target);
    Next(k, s);
    u := After(s, Run()[k]);
  }

  lemma Put(k: nat, s: Durable, row: RoundRow, files: RoundFiles, a: Artifact) returns (u: Durable)
    requires At(k, s) && UnderWay(s, row, files) && IsRoundArtifact(a) && a.round == 1
    requires k < |Run()| && Run()[k] == File(a)
    requires Fits(a, [], View(s.tables, s.files, 1), s.tables.task.value.best) && !ConflictsWith(s.files, a)
    ensures At(k + 1, u) && UnderWay(u, row, InRound(files, a)) && u.tables == s.tables
  {
    hide Inv, At, Run, Fits, ConflictsWith, WithArtifact, InRound;
    CommitStep(CONFIG, s.tables, s.files, [], a);
    Next(k, s);
    u := After(s, Run()[k]);
    Written(u.files, s.files, a);
  }

  function Opened(): RoundFiles {
    NO_FILES.(prompt := Some(PromptFor(1, [])))
  }

  function Answered(): RoundFiles {
    Opened().(exchange := Some(ExampleResponse(1)), response := Some(ExampleResponse(1)))
  }

  function Evaluated(): RoundFiles {
    Answered().(candidate := Some(EXAMPLE_CODE), evaluation := Some(FailedBenchmark()))
  }

  lemma TaskIsCreated() returns (s: Durable)
    ensures At(2, s) && Inv(CONFIG, s.tables, s.files, []) && Searching(s.tables)
    ensures s.files == NOTHING.files && s.tables.task.value.currentRound == 0
  {
    hide RoundInv, BestInv, CandidatesInv, FinalInv, Inv, PromptFor, ExampleResponse, FailedBenchmark;
    CreateTaskStep(CONFIG, EMPTY_TABLES, NOTHING.files);
    assert Run()[..0] == [];
    Next(0, NOTHING);
    s := After(NOTHING, Run()[0]);
    StartOfTask(CONFIG, s.tables, s.files, []);
    TaskMoveStep(CONFIG, s.tables, s.files, [], RoundsRunning);
    Next(1, s);
    s := After(s, Run()[1]);
  }

  lemma RoundIsCreated() returns (s: Durable)
    ensures At(3, s) && UnderWay(s, RoundRow(RoundCreated, 1), NO_FILES)
  {
    hide Inv, At, PromptFor, ExampleResponse, FailedBenchmark;
    s := TaskIsCreated();
    NothingFinished();
    CreateRoundStep(CONFIG, s.tables, s.files, []);
    Next(2, s);
    s := After(s, Run()[2]);
  }

  lemma NothingFinished()
    ensures NoRetry([])
  {
  }

  lemma RoundOpens() returns (s: Durable)
    ensures At(6, s) && UnderWay(s, RoundRow(ModelRequestSent, 3), Opened())
  {
    hide Inv, At, PromptFor, StrictStateMachine.CanTransition, ExampleResponse, FailedBenchmark;
    s := RoundIsCreated();
    FirstEdges();
    s := Put(3, s, RoundRow(RoundCreated, 1), NO_FILES, PromptFile(1, PromptFor(1, [])));
    s := Move(4, s, RoundRow(RoundCreated, 1), Opened(), PromptCommitted);
    s := Move(5, s, RoundRow(PromptCommitted, 2), Opened(), ModelRequestSent);
  }

  lemma RoundIsAnswered() returns (s: Durable)
    ensures At(9, s) && UnderWay(s, RoundRow(ModelResponseCommitted, 4), Answered())
  {
    hide Inv, At, PromptFor, StrictStateMachine.CanTransition, Readable, ParsedResponse, ExampleResponse, FailedBenchmark;
    s := RoundOpens();
    ExamplePrints();
    FirstEdges();
    var row := RoundRow(ModelRequestSent, 3);
    s := Put(6, s, row, Opened(), ExchangeFile(1, ExampleResponse(1)));
    s := Put(7, s, row, Opened().(exchange := Some(ExampleResponse(1))), ResponseFile(1, ExampleResponse(1)));
    s := Move(8, s, row, Answered(), ModelResponseCommitted);
  }

  lemma ExamplePrints()
    ensures Readable(1, ExampleResponse(1)) && ParsedResponse(1, ExampleResponse(1)).value.ToDict() == ExampleResponse(1)
  {
    hide Validate, ModelResponse.ToDict;
    ExampleIsReadable(1);
  }

  lemma CandidateIsRegistered() returns (s: Durable)
    ensures At(11, s)
    ensures UnderWay(s, RoundRow(ModelResponseCommitted, 4), Answered().(candidate := Some(EXAMPLE_CODE)))
    ensures View(s.tables, s.files, 1).registered.Some?
  {
    hide Inv, At, PromptFor, PlanFor, Readable, ParsedResponse, ExampleResponse, FailedBenchmark;
    s := RoundIsAnswered();
    ExampleIsReadable(1);
    s := Put(9, s, RoundRow(ModelResponseCommitted, 4), Answered(), CandidateFile(1, EXAMPLE_CODE));
    CurrentRound(CONFIG, s.tables, s.files, [], 1);
    RegisterStep(CONFIG, s.tables, s.files, [], 1);
    Next(10, s);
    s := After(s, Run()[10]);
  }

  lemma FailedBenchmarkIsOwn()
    ensures var e := FailedBenchmark();
            && e.plan == PlanFor([]) && e.report.score.candidateId == CANDIDATE && e.report.score.roundNumber == 1
            && SameUpToHidden(e.report.score, e.report.score)
  {
    hide PlanFor;
  }

  lemma RoundIsEvaluated() returns (s: Durable)
    ensures At(13, s)
    ensures UnderWay(s, RoundRow(ModelResponseCommitted, 4), Evaluated()) && View(s.tables, s.files, 1).score.Some?
  {
    hide Inv, At, PromptFor, PlanFor, Readable, ParsedResponse, ExampleResponse, FailedBenchmark, SameUpToHidden;
    s := CandidateIsRegistered();
    FailedBenchmarkIsOwn();
    CurrentRound(CONFIG, s.tables, s.files, [], 1);
    var e := FailedBenchmark();
    EvaluationFits(CONFIG, s.tables, s.files, [], 1, e);
    s := Put(11, s, RoundRow(ModelResponseCommitted, 4), Answered().(candidate := Some(EXAMPLE_CODE)),
             EvaluationFile(1, e));
    SaveScoreStep(CONFIG, s.tables, s.files, [], 1, e.report.score);
    Next(12, s);
    s := After(s, Run()[12]);
  }

  lemma StagesAreReady(i: nat)
    requires i < 5
    ensures LastStage(FailedBenchmark().report.outcome).BenchmarkFinished?
    ensures ReadyFor(STAGES[i], Evaluated(), true)
    ensures ROUND_MACHINE.CanTransition(if i == 0 then ModelResponseCommitted else STAGES[i - 1], STAGES[i])
  {
    hide PlanFor, PromptFor, ExampleResponse;
  }

  lemma StagesAreRecorded() returns (s: Durable)
    ensures At(18, s) && UnderWay(s, RoundRow(ProfileFinished, 9), Evaluated())
  {
    hide Inv, At, StrictStateMachine.CanTransition, ReadyFor, Evaluated, FailedBenchmark, ExampleResponse, PromptFor;
    s := RoundIsEvaluated();
    StagesAreReady(0);
    s := Move(13, s, RoundRow(ModelResponseCommitted, 4), Evaluated(), SourceValidated);
    StagesAreReady(1);
    s := Move(14, s, RoundRow(SourceValidated, 5), Evaluated(), CompileFinished);
    StagesAreReady(2);
    s := Move(15, s, RoundRow(CompileFinished, 6), Evaluated(), CorrectnessFinished);
    StagesAreReady(3);
    s := Move(16, s, RoundRow(CorrectnessFinished, 7), Evaluated(), BenchmarkFinished);
    StagesAreReady(4);
    s := Move(17, s, RoundRow(BenchmarkFinished, 8), Evaluated(), ProfileFinished);
  }

  /** Every effect of the run succeeds, and it ends in a state of the controller
      that it refuses to resume. */
  lemma StuckIsReachable()
    ensures AllSucceed(Run())
    ensures var s := AfterAll(Run());
            Inv(CONFIG, s.tables, s.files, []) && Stuck(View(s.tables, s.files, 1))
  {
    hide Inv, AllSucceed, AfterAll, LastStage, FailedBenchmark, ExampleResponse, PromptFor;
    var s := StagesAreRecorded();
    StagesAreReady(0);
    assert Run()[..18] == Run();
  }
}
