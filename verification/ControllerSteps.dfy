/** Each durable write of the controller keeps the invariant. */
module ControllerSteps {
  import opened Wrappers
  import opened JsonValue
  import opened StateMachine
  import opened Scoring
  import opened Trajectory
  import opened ModelResponses
  import opened StateStore
  import opened ControllerModel

  /** Committing the same content again changes nothing. */
  lemma RecommitIsIdle(files: Files, a: Artifact)
    requires AlreadyCommitted(files, a)
    ensures !ConflictsWith(files, a) && WithArtifact(files, a) == files
  {
    if IsRoundArtifact(a) {
      assert a.round in files.rounds;
      assert WithArtifact(files, a).rounds == files.rounds;
    }
  }

  /** A new file of one round leaves every other round as it was. */
  lemma ArtifactFrame(t: Tables, files: Files, a: Artifact)
    requires IsRoundArtifact(a) && !ConflictsWith(files, a) && CandidatesInv(t, files)
    ensures var g := WithArtifact(files, a);
            && g.task == files.task && CandidatesInv(t, g)
            && (forall m | m != a.round :: FilesOf(g, m) == FilesOf(files, m))
            && (forall m | m != a.round :: View(t, g, m) == View(t, files, m))
            && (!a.CandidateFile? ==> View(t, g, a.round) == View(t, files, a.round).(files := FilesOf(g, a.round)))
  {
    var g := WithArtifact(files, a);
    assert forall m | m != a.round :: FilesOf(g, m) == FilesOf(files, m);
    assert FilesOf(files, a.round).candidate.Some? ==>
             FilesOf(g, a.round).candidate == FilesOf(files, a.round).candidate;
  }

  predicate Terminal(t: Tables) {
    t.task.Some? && t.task.value.state in TASK_MACHINE.terminal
  }

  predicate Searching(t: Tables) {
    t.task.Some? && t.task.value.state.RoundsRunning?
  }

  /** The common part of every write about a single round. */
  lemma RoundWriteKeepsInv(cfg: Config, t: Tables, files: Files, past: seq<Record>, u: Tables, g: Files, n: nat)
    requires Inv(cfg, t, files, past) && !Terminal(t)
    requires 1 <= n <= t.task.value.currentRound
    requires u.task == t.task && g.task == files.task
    requires forall m :: m in u.rounds <==> m in t.rounds
    requires forall m | m != n :: FilesOf(g, m) == FilesOf(files, m)
    requires forall m | m != n :: View(u, g, m) == View(t, files, m)
    requires CandidatesInv(u, g)
    requires RoundInv(n, past[..n - 1], View(u, g, n), Searching(t))
    requires n <= |past| ==> IsRecord(View(u, g, n), past[n - 1])
    requires n == |past| + 1 ==>
               View(u, g, n).row.value.state != RoundFinished
               && BestInv(past, View(u, g, n), t.task.value.best)
    ensures Inv(cfg, u, g, past)
  {
    hide RoundInv, IsRecord, BestInv, CandidatesInv, OnlineBest, Gated, GatedResult;
    var k := t.task.value.currentRound;
    forall m: nat | 1 <= m <= k
      ensures RoundInv(m, past[..m - 1], View(u, g, m), Searching(t))
    {
      if m != n {
        assert View(u, g, m) == View(t, files, m);
      }
    }
    forall m: nat | 1 <= m <= |past| ensures IsRecord(View(u, g, m), past[m - 1]) {
      if m != n {
        assert View(u, g, m) == View(t, files, m);
      }
    }
    if n != |past| + 1 {
      assert View(u, g, |past| + 1) == View(t, files, |past| + 1);
    }
    if k == |past| + 1 && n != k {
      assert View(u, g, k) == View(t, files, k);
    }
  }

  // ---------- what the invariant says about one round ----------

  ghost predicate IsCurrent(t: Tables, past: seq<Record>, n: nat) {
    t.task.Some? && n == |past| + 1 == t.task.value.currentRound
  }

  lemma CurrentRound(cfg: Config, t: Tables, files: Files, past: seq<Record>, n: nat)
    requires Inv(cfg, t, files, past) && IsCurrent(t, past, n)
    ensures RoundInv(n, past, View(t, files, n), true)
    ensures BestInv(past, View(t, files, n), t.task.value.best)
    ensures CandidatesInv(t, files) && Searching(t) && !Terminal(t) && NoRetry(past)
    ensures n in t.rounds && t.rounds[n].state != RoundFinished
    ensures files.task.finalResult.None?
  {
    hide RoundInv, BestInv, CandidatesInv;
    assert past[..n - 1] == past;
  }

  lemma FinishedRound(cfg: Config, t: Tables, files: Files, past: seq<Record>, n: nat)
    requires Inv(cfg, t, files, past) && 1 <= n <= |past|
    ensures RoundInv(n, past[..n - 1], View(t, files, n), Searching(t))
    ensures IsRecord(View(t, files, n), past[n - 1])
    ensures CandidatesInv(t, files)
    ensures n in t.rounds && t.rounds[n].state == RoundFinished
  {
    hide RoundInv, BestInv, CandidatesInv, FinalInv;
  }

  /** A new artifact of the current round. */
  lemma ArtifactStep(cfg: Config, t: Tables, files: Files, past: seq<Record>, a: Artifact)
    requires Inv(cfg, t, files, past) && IsRoundArtifact(a) && IsCurrent(t, past, a.round)
    requires !ConflictsWith(files, a)
    requires RoundInv(a.round, past, View(t, WithArtifact(files, a), a.round), true)
    requires BestInv(past, View(t, WithArtifact(files, a), a.round), t.task.value.best)
    ensures Inv(cfg, t, WithArtifact(files, a), past)
  {
    hide Inv, RoundInv, BestInv, CandidatesInv, WithArtifact, ConflictsWith;
    CurrentRound(cfg, t, files, past, a.round);
    ArtifactFrame(t, files, a);
    assert past[..a.round - 1] == past;
    RoundWriteKeepsInv(cfg, t, files, past, t, WithArtifact(files, a), a.round);
  }

  /** A transition of the current round, short of finishing it. */
  lemma MoveStep(cfg: Config, t: Tables, files: Files, past: seq<Record>, n: nat, target: RoundState)
    requires Inv(cfg, t, files, past) && IsCurrent(t, past, n)
    requires n in t.rounds && ROUND_MACHINE.CanTransition(t.rounds[n].state, target) && target != RoundFinished
    requires RoundInv(n, past, View(t, files, n).(row := Some(RoundRow(target, t.rounds[n].version + 1))), true)
    ensures var w := MovingRound(n, target, Some(t.rounds[n].version));
            Attempt(t, w).Ok? && Inv(cfg, Apply(t, w), files, past)
            && View(Apply(t, w), files, n) == View(t, files, n).(row := Some(RoundRow(target, t.rounds[n].version + 1)))
            && Apply(t, w).task == t.task
  {
    hide Inv, RoundInv, BestInv, CandidatesInv, StrictStateMachine.CanTransition;
    hide CreateTask, TransitionTask, CreateRound, RegisterCandidate, SaveScore, SetBest;
    var u := Apply(t, MovingRound(n, target, Some(t.rounds[n].version)));
    CurrentRound(cfg, t, files, past, n);
    assert past[..n - 1] == past;
    CandidatesUntouched(t, u, files);
    BestIgnoresRow(past, View(t, files, n), View(u, files, n), t.task.value.best);
    RoundWriteKeepsInv(cfg, t, files, past, u, files, n);
  }

  // ---------- opening a round ----------

  lemma CreateRoundStep(cfg: Config, t: Tables, files: Files, past: seq<Record>)
    requires Inv(cfg, t, files, past) && Searching(t)
    requires t.task.value.currentRound == |past| < cfg.rounds && NoRetry(past)
    requires files.task.finalResult.None?
    ensures var w := CreatingRound(|past| + 1);
            Attempt(t, w).Ok? && Inv(cfg, Apply(t, w), files, past) && IsCurrent(Apply(t, w), past, |past| + 1)
            && View(Apply(t, w), files, |past| + 1) == RoundView(Some(RoundRow(RoundCreated, 1)), NO_FILES, None, None)
  {
    hide RoundInv, IsRecord, CandidatesInv, NoRetry, OnlineBest, FinalInv, BestInv;
    hide CreateTask, TransitionTask, TransitionRound, RegisterCandidate, SaveScore, SetBest;
    var n := |past| + 1;
    var u := Apply(t, CreatingRound(n));
    if past != [] {
      FinishedRound(cfg, t, files, past, |past|);
    }
    assert u.rounds == t.rounds[n := RoundRow(RoundCreated, 1)];
    forall m | m != n ensures View(u, files, m) == View(t, files, m) {}
    FreshRoundInv(n, past);
    assert past[..n - 1] == past;
    forall m: nat | 1 <= m <= n ensures RoundInv(m, past[..m - 1], View(u, files, m), true) {
      if m != n {
        assert View(u, files, m) == View(t, files, m);
      }
    }
    forall m: nat | 1 <= m <= |past| ensures IsRecord(View(u, files, m), past[m - 1]) {
      assert View(u, files, m) == View(t, files, m);
    }
    CandidatesUntouched(t, u, files);
    BestIgnoresRow(past, View(t, files, n), View(u, files, n), t.task.value.best);
    FinalOfNewRound(cfg, past, t.task.value, u.task.value, files.task, View(t, files, BestRound(past)),
                    View(u, files, BestRound(past)));
  }

  lemma BestIgnoresRow(past: seq<Record>, v: RoundView, w: RoundView, reference: Option<CandidateId>)
    requires BestInv(past, v, reference) && v.files == w.files && v.score == w.score
    ensures BestInv(past, w, reference)
  {
  }

  lemma FinalOfNewRound(cfg: Config, past: seq<Record>, row: TaskRow, next: TaskRow, files: TaskFiles,
                        v: RoundView, w: RoundView)
    requires FinalInv(cfg, past, row, files, v) && row.state.RoundsRunning? && next.state.RoundsRunning?
    ensures FinalInv(cfg, past, next, files, w)
  {
    hide OnlineBest;
  }

  lemma CandidatesUntouched(t: Tables, u: Tables, files: Files)
    requires CandidatesInv(t, files) && u.candidates == t.candidates && u.scores == t.scores
    ensures CandidatesInv(u, files)
  {
  }

  lemma FreshRoundInv(n: nat, before: seq<Record>)
    ensures RoundInv(n, before, RoundView(Some(RoundRow(RoundCreated, 1)), NO_FILES, None, None), true)
  {
  }

  // ---------- candidates and scores ----------

  lemma RegisteredView(n: nat, before: seq<Record>, v: RoundView, searching: bool)
    requires RoundInv(n, before, v, searching) && v.files.candidate.Some? && v.files.response.Some?
    ensures var row := CandidateRow(n, v.files.candidate.value, v.files.response.value);
            && (v.registered.Some? ==> v.registered.value == row)
            && RoundInv(n, before, v.(registered := Some(row)), searching)
  {
    hide ResponseInv, FeedbackOk, OnlineBest;
  }

  lemma CreatedRound(cfg: Config, t: Tables, files: Files, past: seq<Record>, n: nat)
    requires Inv(cfg, t, files, past) && 1 <= n <= t.task.value.currentRound
    ensures n in t.rounds
  {
    hide RoundInv, BestInv, CandidatesInv, FinalInv, IsRecord;
  }

  lemma RegisterStep(cfg: Config, t: Tables, files: Files, past: seq<Record>, n: nat)
    requires Inv(cfg, t, files, past) && !Terminal(t) && 1 <= n <= t.task.value.currentRound
    requires var f := FilesOf(files, n); f.candidate.Some? && f.response.Some?
    ensures var f := FilesOf(files, n);
            var w := Registering(CandidateOf(n, f), CandidateRow(n, f.candidate.value, f.response.value));
            && Attempt(t, w).Ok? && Inv(cfg, Apply(t, w), files, past)
            && Apply(t, w).task == t.task && Apply(t, w).rounds == t.rounds && Apply(t, w).scores == t.scores
            && View(Apply(t, w), files, n) == View(t, files, n).(registered := Some(w.row))
  {
    hide Inv, RoundInv, BestInv;
    var f := FilesOf(files, n);
    var id := CandidateOf(n, f);
    var row := CandidateRow(n, f.candidate.value, f.response.value);
    var u := Apply(t, Registering(id, row));
    RoundOf(cfg, t, files, past, n);
    CreatedRound(cfg, t, files, past, n);
    RegisteredView(n, past[..n - 1], View(t, files, n), Searching(t));
    if id !in t.candidates {
      assert View(u, files, n) == View(t, files, n).(registered := Some(row));
      BestIgnoresRegistration(past, View(t, files, n), Some(row), t.task.value.best);
      RecordSurvives(t, files, past, n, View(u, files, n));
      RoundWriteKeepsInv(cfg, t, files, past, u, files, n);
    }
  }

  /** A record stays the round's record while its row and files stay. */
  lemma RecordSurvives(t: Tables, files: Files, past: seq<Record>, n: nat, v: RoundView)
    requires 1 <= n && v.row == View(t, files, n).row && v.files == FilesOf(files, n)
    ensures n <= |past| && IsRecord(View(t, files, n), past[n - 1]) ==> IsRecord(v, past[n - 1])
  {
  }

  lemma BestIgnoresRegistration(past: seq<Record>, v: RoundView, row: Option<CandidateRow>, reference: Option<CandidateId>)
    ensures BestInv(past, v, reference) ==> BestInv(past, v.(registered := row), reference)
  {
  }

  lemma BestSurvivesScore(past: seq<Record>, v: RoundView, score: CandidateScore, reference: Option<CandidateId>)
    ensures BestInv(past, v, reference) ==> BestInv(past, v.(score := Some(score)), reference)
  {
  }

  /** What holds of any created round, finished or current. */
  lemma RoundOf(cfg: Config, t: Tables, files: Files, past: seq<Record>, n: nat)
    requires Inv(cfg, t, files, past) && 1 <= n <= t.task.value.currentRound
    ensures t.task.Some? && n - 1 <= |past|
    ensures RoundInv(n, past[..n - 1], View(t, files, n), Searching(t))
    ensures n <= |past| ==> IsRecord(View(t, files, n), past[n - 1])
    ensures n == |past| + 1 ==>
              View(t, files, n).row.value.state != RoundFinished
              && BestInv(past, View(t, files, n), t.task.value.best)
    ensures CandidatesInv(t, files)
  {
    hide RoundInv, BestInv, CandidatesInv, FinalInv, IsRecord;
  }

  lemma ScoredView(n: nat, before: seq<Record>, v: RoundView, searching: bool, score: CandidateScore)
    requires RoundInv(n, before, v, searching) && v.files.evaluation.Some?
    requires SameUpToHidden(score, v.files.evaluation.value.report.score)
    requires searching ==> score == v.files.evaluation.value.report.score
    ensures RoundInv(n, before, v.(score := Some(score)), searching)
    ensures v.registered.Some? && v.registered.value.round == n && v.files.candidate.Some?
    ensures score.candidateId == CandidateOf(n, v.files) && score.roundNumber == n
  {
    hide ResponseInv, FeedbackOk, OnlineBest, Readable;
  }

  lemma SaveScoreStep(cfg: Config, t: Tables, files: Files, past: seq<Record>, n: nat, score: Score)
    requires Inv(cfg, t, files, past) && !Terminal(t) && 1 <= n <= t.task.value.currentRound
    requires FilesOf(files, n).evaluation.Some?
    requires SameUpToHidden(score, FilesOf(files, n).evaluation.value.report.score)
    requires Searching(t) ==> score == FilesOf(files, n).evaluation.value.report.score
    ensures var w := StateStore.Write.Scoring(score);
            && Attempt(t, w).Ok? && Inv(cfg, Apply(t, w), files, past)
            && Apply(t, w).task == t.task && Apply(t, w).rounds == t.rounds
            && View(Apply(t, w), files, n) == View(t, files, n).(score := Some(score))
            && forall m | m != n :: View(Apply(t, w), files, m) == View(t, files, m)
  {
    hide Inv, RoundInv, BestInv, SameUpToHidden;
    var u := Apply(t, StateStore.Write.Scoring(score));
    RoundOf(cfg, t, files, past, n);
    ScoredView(n, past[..n - 1], View(t, files, n), Searching(t), score);
    assert View(u, files, n) == View(t, files, n).(score := Some(score));
    BestSurvivesScore(past, View(t, files, n), score, t.task.value.best);
    RecordSurvives(t, files, past, n, View(u, files, n));
    RoundWriteKeepsInv(cfg, t, files, past, u, files, n);
  }

  // ---------- the selected BEST ----------

  lemma SameViews(t: Tables, u: Tables, files: Files)
    requires u.rounds == t.rounds && u.candidates == t.candidates && u.scores == t.scores
    ensures forall m :: View(u, files, m) == View(t, files, m)
    ensures CandidatesInv(t, files) ==> CandidatesInv(u, files)
  {
  }

  lemma SetBestStep(cfg: Config, t: Tables, files: Files, past: seq<Record>, n: nat, reason: string)
    requires Inv(cfg, t, files, past) && IsCurrent(t, past, n)
    requires var v := View(t, files, n);
             v.score.Some? && v.files.evaluation.Some? && v.files.feedback.None?
             && Selected(past, v.files.evaluation.value.report)
    ensures var id := FilesOf(files, n).evaluation.value.report.score.candidateId;
            var w := Selecting(id, reason);
            && Attempt(t, w).Ok? && Inv(cfg, Apply(t, w), files, past)
            && IsCurrent(Apply(t, w), past, n) && Apply(t, w).task.value.best == Some(id)
            && Apply(t, w).rounds == t.rounds && Apply(t, w).scores == t.scores
            && View(Apply(t, w), files, n) == View(t, files, n)
  {
    hide RoundInv, CandidatesInv, IsRecord, NoRetry, OnlineBest, Selected, OnlineComparison;
    var report := FilesOf(files, n).evaluation.value.report;
    var id := report.score.candidateId;
    var u := Apply(t, Selecting(id, reason));
    CurrentRound(cfg, t, files, past, n);
    ScoredRound(t, files, n, past);
    SelectedIsValid(past, report);
    SameViews(t, u, files);
  }

  /** A saved score of the current round is found under its evaluation's identity. */
  lemma ScoredRound(t: Tables, files: Files, n: nat, before: seq<Record>)
    requires RoundInv(n, before, View(t, files, n), true) && CandidatesInv(t, files)
    requires View(t, files, n).score.Some? && FilesOf(files, n).evaluation.Some?
    ensures var score := FilesOf(files, n).evaluation.value.report.score;
            && score.candidateId == CandidateOf(n, FilesOf(files, n))
            && score.candidateId in t.scores && score.candidateId in t.candidates
            && t.scores[score.candidateId] == score
  {
    hide ResponseInv, FeedbackInv, OnlineBest;
  }

  lemma SelectedIsValid(before: seq<Record>, report: Report)
    requires Selected(before, report)
    ensures report.score.IsPubliclyValid()
  {
    hide OnlineBest;
  }

  // ---------- finishing a round ----------

  function RecordOf(f: RoundFiles): Record
    requires f.response.Some? && f.evaluation.Some? && f.feedback.Some?
  {
    Record(f.response.value, f.evaluation.value, f.feedback.value)
  }

  /** Whichever way feedback was written, it names the next incumbent. */
  lemma FeedbackNamesNextBest(before: seq<Record>, r: Record)
    requires FeedbackOk(before, r.evaluation.report, r.feedback)
    ensures r.feedback.bestAfter == IdOf(NextBest(OnlineBest(before), r.evaluation.report))
    ensures r.feedback.bestAfter == IdOf(OnlineBest(before + [r]))
  {
    hide OnlineComparison, UnpairedBest;
    assert (before + [r])[..|before|] == before;
  }

  lemma FinishStep(cfg: Config, t: Tables, files: Files, past: seq<Record>, n: nat)
    requires Inv(cfg, t, files, past) && IsCurrent(t, past, n)
    requires n in t.rounds && t.rounds[n].state == FeedbackCommitted
    ensures var f := FilesOf(files, n);
            f.response.Some? && f.evaluation.Some? && f.feedback.Some? &&
            var w := MovingRound(n, RoundFinished, Some(t.rounds[n].version));
            && Attempt(t, w).Ok? && Inv(cfg, Apply(t, w), files, past + [RecordOf(f)])
            && Apply(t, w).task == t.task
  {
    hide Inv, RoundInv, FeedbackOk, BestInv, CandidatesInv;
    CurrentRound(cfg, t, files, past, n);
    FinishedFiles(n, past, View(t, files, n));
    FinishKeepsInv(cfg, t, files, past, n);
  }

  lemma FinishedFiles(n: nat, before: seq<Record>, v: RoundView)
    requires RoundInv(n, before, v, true) && v.row.value.state == FeedbackCommitted
    ensures v.files.response.Some? && v.files.evaluation.Some? && v.files.feedback.Some?
    ensures FeedbackOk(before, v.files.evaluation.value.report, v.files.feedback.value)
    ensures RoundInv(n, before, v.(row := Some(v.row.value.(state := RoundFinished, version := v.row.value.version + 1))), true)
  {
    hide FeedbackOk, Readable, OnlineBest;
  }

  lemma FinishKeepsInv(cfg: Config, t: Tables, files: Files, past: seq<Record>, n: nat)
    requires Inv(cfg, t, files, past) && IsCurrent(t, past, n)
    requires n in t.rounds && t.rounds[n].state == FeedbackCommitted
    requires var f := FilesOf(files, n); f.response.Some? && f.evaluation.Some? && f.feedback.Some?
    requires FeedbackOk(past, FilesOf(files, n).evaluation.value.report, FilesOf(files, n).feedback.value)
    requires RoundInv(n, past, View(t, files, n).(row := Some(RoundRow(RoundFinished, t.rounds[n].version + 1))), true)
    ensures var w := MovingRound(n, RoundFinished, Some(t.rounds[n].version));
            && Attempt(t, w).Ok? && Inv(cfg, Apply(t, w), files, past + [RecordOf(FilesOf(files, n))])
            && Apply(t, w).task == t.task
  {
    hide RoundInv, CandidatesInv, OnlineBest, FeedbackOk, Selected, Gated, GatedResult;
    var u := Apply(t, MovingRound(n, RoundFinished, Some(t.rounds[n].version)));
    var r := RecordOf(FilesOf(files, n));
    var next := past + [r];
    CurrentRound(cfg, t, files, past, n);
    FeedbackNamesNextBest(past, r);
    forall m | m != n ensures View(u, files, m) == View(t, files, m) {}
    assert CandidatesInv(u, files) by { CandidatesUntouched(t, u, files); }
    forall m: nat | 1 <= m <= n
      ensures RoundInv(m, next[..m - 1], View(u, files, m), true)
      ensures IsRecord(View(u, files, m), next[m - 1])
    {
      assert next[..m - 1] == past[..m - 1];
      if m == n {
        assert past[..m - 1] == past;
      } else {
        assert View(u, files, m) == View(t, files, m);
      }
    }
    assert next[..|next| - 1] == past;
    assert View(u, files, n + 1).files == NO_FILES;
  }

  // ---------- moving the current round ----------

  /** What must be durable before the current round may enter a state. */
  ghost predicate ReadyFor(target: RoundState, f: RoundFiles, scored: bool) {
    match target
    case PromptCommitted => f.prompt.Some?
    case ModelResponseCommitted => f.response.Some?
    case SourceValidated | CompileFinished | CorrectnessFinished | BenchmarkFinished | ProfileFinished =>
      scored && f.evaluation.Some?
      && RoundRank(target) <= RoundRank(StagesRecorded(f.evaluation.value.report.outcome))
    case FeedbackCommitted => f.feedback.Some?
    case _ => target.ModelRequestSent?
  }

  function Moved(v: RoundView, target: RoundState): RoundView
    requires v.row.Some?
  {
    v.(row := Some(RoundRow(target, v.row.value.version + 1)))
  }

  lemma MovedView(n: nat, before: seq<Record>, v: RoundView, target: RoundState)
    requires RoundInv(n, before, v, true)
    requires ROUND_MACHINE.CanTransition(v.row.value.state, target) && ReadyFor(target, v.files, v.score.Some?)
    ensures RoundInv(n, before, Moved(v, target), true)
  {
    hide FeedbackOk, Readable, OnlineBest, PromptFor, PlanFor, StrictStateMachine.CanTransition;
    RoundEdgesClimb(v.row.value.state, target);
  }

  lemma MoveCurrent(cfg: Config, t: Tables, files: Files, past: seq<Record>, n: nat, target: RoundState)
    requires Inv(cfg, t, files, past) && IsCurrent(t, past, n)
    requires n in t.rounds && ROUND_MACHINE.CanTransition(t.rounds[n].state, target)
    requires ReadyFor(target, FilesOf(files, n), View(t, files, n).score.Some?)
    ensures var w := MovingRound(n, target, Some(t.rounds[n].version));
            && Attempt(t, w).Ok? && Inv(cfg, Apply(t, w), files, past)
            && View(Apply(t, w), files, n) == Moved(View(t, files, n), target)
            && Apply(t, w).task == t.task
  {
    hide Inv, RoundInv, ReadyFor, BestInv, CandidatesInv;
    CurrentRound(cfg, t, files, past, n);
    ReadyIsUnfinished(target, FilesOf(files, n), View(t, files, n).score.Some?);
    MovedView(n, past, View(t, files, n), target);
    MoveStep(cfg, t, files, past, n, target);
  }

  lemma ReadyIsUnfinished(target: RoundState, f: RoundFiles, scored: bool)
    requires ReadyFor(target, f, scored)
    ensures target != RoundFinished
  {
  }

  // ---------- artifacts of the current round ----------

  /** What a new artifact must agree with. */
  ghost predicate Fits(a: Artifact, past: seq<Record>, v: RoundView, reference: Option<CandidateId>) {
    var n, f := |past| + 1, v.files;
    v.row.Some? &&
    match a
    case PromptFile(_, prompt) => v.row.value.state.RoundCreated? && prompt == PromptFor(n, past)
    case ExchangeFile(_, fields) =>
      && v.row.value.state.ModelRequestSent? && f.response.None? && f.failureExchange.None?
      && Readable(n, fields) && ParsedResponse(n, fields).value.ToDict() == fields
    case FailureExchangeFile(_, _) =>
      v.row.value.state.ModelRequestSent? && f.response.None? && f.exchange.None?
    case ModelFailureFile(_, error) => v.row.value.state.ModelRequestSent? && f.failureExchange == Some(error)
                                       && f.candidate.None?
    case ResponseFile(_, fields) =>
      && v.row.value.state.ModelRequestSent? && Readable(n, fields)
      && (f.exchange == Some(fields)
          || (f.failureExchange.Some? && f.modelFailure.Some? && fields == SyntheticResponse(n)))
    case CandidateFile(_, code) =>
      RoundRank(v.row.value.state) >= 3 && f.response.Some? && code == CodeOf(n, f.response.value)
    case EvaluationFile(_, e) =>
      && v.registered.Some? && e.plan == PlanFor(past) && f.evaluation.None?
      && e.report.score.candidateId == CandidateOf(n, f) && e.report.score.roundNumber == n
      && (f.modelFailure.Some? ==> e.report == FailureReport(CandidateOf(n, f)))
    case FeedbackFile(_, feedback) =>
      && v.score.Some? && f.evaluation.Some? && f.feedback.None?
      && v.row.value.state == StagesRecorded(f.evaluation.value.report.outcome)
      && FeedbackOk(past, f.evaluation.value.report, feedback) && reference == feedback.bestAfter
    case _ => false
  }

  lemma CommittedView(a: Artifact, past: seq<Record>, files: Files, v: RoundView, reference: Option<CandidateId>)
    requires IsRoundArtifact(a) && !a.CandidateFile? && a.round == |past| + 1
    requires v.files == FilesOf(files, a.round) && RoundInv(a.round, past, v, true)
    requires Fits(a, past, v, reference) && !ConflictsWith(files, a)
    ensures RoundInv(a.round, past, v.(files := FilesOf(WithArtifact(files, a), a.round)), true)
  {
    hide FeedbackOk, Readable, OnlineBest, PromptFor, PlanFor, CodeOf, SyntheticResponse;
  }

  lemma BestAfterCommit(a: Artifact, past: seq<Record>, files: Files, v: RoundView, reference: Option<CandidateId>)
    requires IsRoundArtifact(a) && !a.CandidateFile? && a.round == |past| + 1
    requires v.files == FilesOf(files, a.round) && RoundInv(a.round, past, v, true)
    requires BestInv(past, v, reference)
    requires Fits(a, past, v, reference) && !ConflictsWith(files, a)
    ensures BestInv(past, v.(files := FilesOf(WithArtifact(files, a), a.round)), reference)
  {
    hide OnlineBest, Readable, PromptFor, PlanFor, CodeOf, SyntheticResponse, Selected, FeedbackOk, ResponseInv, CandidateInv;
  }

  lemma NewCandidate(t: Tables, past: seq<Record>, files: Files, n: nat, code: string, reference: Option<CandidateId>)
    requires n == |past| + 1 && CandidatesInv(t, files) && RoundInv(n, past, View(t, files, n), true)
    requires BestInv(past, View(t, files, n), reference)
    requires Fits(CandidateFile(n, code), past, View(t, files, n), reference)
    requires !ConflictsWith(files, CandidateFile(n, code))
    ensures var g := WithArtifact(files, CandidateFile(n, code));
            RoundInv(n, past, View(t, g, n), true) && BestInv(past, View(t, g, n), reference)
  {
    hide FeedbackOk, OnlineBest, PromptFor, PlanFor, SyntheticResponse, Selected, ResponseInv, Readable, CodeOf;
    var g := WithArtifact(files, CandidateFile(n, code));
    var f := FilesOf(files, n);
    if f.candidate.None? {
      assert CandidateId(n, code) !in t.candidates && CandidateId(n, code) !in t.scores;
      assert View(t, g, n) == View(t, files, n).(files := f.(candidate := Some(code)));
      CandidateLeavesResponse(n, RoundRank(t.rounds[n].state), f, code);
    } else {
      RecommitIsIdle(files, CandidateFile(n, code));
    }
  }

  lemma CandidateLeavesResponse(n: nat, rank: nat, f: RoundFiles, code: string)
    ensures ResponseInv(n, rank, f) ==> ResponseInv(n, rank, f.(candidate := Some(code)))
  {
  }

  lemma CommitStep(cfg: Config, t: Tables, files: Files, past: seq<Record>, a: Artifact)
    requires Inv(cfg, t, files, past) && IsRoundArtifact(a) && IsCurrent(t, past, a.round)
    requires Fits(a, past, View(t, files, a.round), t.task.value.best) && !ConflictsWith(files, a)
    ensures Inv(cfg, t, WithArtifact(files, a), past)
    ensures View(t, WithArtifact(files, a), a.round).row == View(t, files, a.round).row
    ensures WithArtifact(files, a).task == files.task
  {
    hide Inv, RoundInv, BestInv, CandidatesInv, Fits, ConflictsWith, WithArtifact;
    var n := a.round;
    CurrentRound(cfg, t, files, past, n);
    ArtifactFrame(t, files, a);
    if a.CandidateFile? {
      NewCandidate(t, past, files, n, a.code, t.task.value.best);
    } else {
      CommittedView(a, past, files, View(t, files, n), t.task.value.best);
      BestAfterCommit(a, past, files, View(t, files, n), t.task.value.best);
    }
    ArtifactStep(cfg, t, files, past, a);
  }
}
