/** Task-level writes keep the invariant, and what the tables say about BEST. */
module ControllerTask {
  import opened Wrappers
  import opened StateMachine
  import opened Scoring
  import opened Trajectory
  import opened StateStore
  import opened ControllerModel
  import opened ControllerSteps

  /** Nothing durable exists yet. */
  ghost predicate NothingDurable(t: Tables, files: Files) {
    && t.task.None? && t.rounds == map[] && t.candidates == map[] && t.scores == map[]
    && (forall n :: FilesOf(files, n) == NO_FILES)
    && files.task == TaskFiles(None, None, None)
  }

  lemma CreateTaskStep(cfg: Config, t: Tables, files: Files)
    requires NothingDurable(t, files)
    ensures var u := Apply(t, CreatingTask(cfg.spec));
            Attempt(t, CreatingTask(cfg.spec)).Ok? && Inv(cfg, u, files, []) && u.task.value.state.TaskCreated?
  {
    hide RoundInv;
    var u := Apply(t, CreatingTask(cfg.spec));
    assert View(u, files, 1) == RoundView(None, NO_FILES, None, None);
  }

  /** A task transition changes what is required of the final files only. */
  lemma TaskMoveStep(cfg: Config, t: Tables, files: Files, past: seq<Record>, target: TaskState)
    requires Inv(cfg, t, files, past)
    requires TASK_MACHINE.CanTransition(t.task.value.state, target)
    requires t.task.value.currentRound == |past|
    requires target.RoundsRunning? ==> past == []
    requires FinalInv(cfg, past, t.task.value.(state := target), files.task, View(t, files, BestRound(past)))
    ensures var w := MovingTask(target, None);
            && Attempt(t, w).Ok? && Inv(cfg, Apply(t, w), files, past)
            && Apply(t, w).task == Some(t.task.value.(state := target, version := t.task.value.version + 1))
            && Apply(t, w).rounds == t.rounds && Apply(t, w).scores == t.scores
            && forall m :: View(Apply(t, w), files, m) == View(t, files, m)
  {
    hide RoundInv, CandidatesInv, IsRecord, OnlineBest, Gated, GatedResult, BestInv, StrictStateMachine.CanTransition;
    var u := Apply(t, MovingTask(target, None));
    SameViews(t, u, files);
    forall m: nat | 1 <= m <= |past|
      ensures RoundInv(m, past[..m - 1], View(u, files, m), target.RoundsRunning?)
    {
      SearchingIsStronger(m, past[..m - 1], View(t, files, m), Searching(t));
    }
    FinalIgnoresVersion(cfg, past, t.task.value.(state := target), files.task, View(t, files, BestRound(past)));
    assert View(u, files, |past| + 1) == View(t, files, |past| + 1);
  }

  lemma FinalIgnoresVersion(cfg: Config, past: seq<Record>, row: TaskRow, files: TaskFiles, v: RoundView)
    requires FinalInv(cfg, past, row, files, v)
    ensures FinalInv(cfg, past, row.(version := row.version + 1), files, v)
  {
    hide OnlineBest, Gated, GatedResult;
  }

  lemma SearchingIsStronger(n: nat, before: seq<Record>, v: RoundView, searching: bool)
    requires RoundInv(n, before, v, searching)
    ensures RoundInv(n, before, v, false)
  {
    hide ResponseInv, CandidateInv, FeedbackInv, OnlineBest, PlanFor;
  }

  lemma TaskArtifactStep(cfg: Config, t: Tables, files: Files, past: seq<Record>, a: Artifact)
    requires Inv(cfg, t, files, past) && !IsRoundArtifact(a)
    requires FinalInv(cfg, past, t.task.value, WithArtifact(files, a).task, View(t, files, BestRound(past)))
    ensures Inv(cfg, t, WithArtifact(files, a), past)
    ensures forall m :: View(t, WithArtifact(files, a), m) == View(t, files, m)
  {
    hide RoundInv, IsRecord, OnlineBest, Gated, GatedResult, BestInv, FinalInv;
    var g := WithArtifact(files, a);
    assert g.rounds == files.rounds;
    assert forall m :: FilesOf(g, m) == FilesOf(files, m);
    assert forall m :: View(t, g, m) == View(t, files, m);
  }

  // ---------- the incumbent in the tables ----------

  /** Where the incumbent came from. */
  lemma {:induction false} BestIsRecorded(past: seq<Record>)
    ensures var best := OnlineBest(past);
            best.Some? ==> exists i :: 0 <= i < |past| && past[i].evaluation.report.score == best.value
    decreases |past|
  {
    hide OnlineComparison;
    if past != [] {
      var front := past[..|past| - 1];
      BestIsRecorded(front);
      if OnlineBest(past).Some? && OnlineBest(past) == OnlineBest(front) {
        var i :| 0 <= i < |front| && front[i].evaluation.report.score == OnlineBest(front).value;
        assert past[i].evaluation.report.score == OnlineBest(past).value;
      } else if OnlineBest(past).Some? {
        assert past[|past| - 1].evaluation.report.score == OnlineBest(past).value;
      }
    }
  }

  /** The row of a finished round's candidate. */
  lemma RecordedScore(cfg: Config, t: Tables, files: Files, past: seq<Record>, n: nat)
    requires Inv(cfg, t, files, past) && 1 <= n <= |past|
    ensures var score := past[n - 1].evaluation.report.score;
            && score.candidateId.round == score.roundNumber == n
            && View(t, files, n).score == Lookup(t.scores, score.candidateId)
            && View(t, files, n).score.Some?
            && SameUpToHidden(View(t, files, n).score.value, score)
            && (Searching(t) ==> View(t, files, n).score.value == score)
            && FilesOf(files, n).candidate == Some(score.candidateId.source)
            && FilesOf(files, n).evaluation == Some(past[n - 1].evaluation)
            && FilesOf(files, n).feedback == Some(past[n - 1].feedback)
            && FeedbackOk(past[..n - 1], past[n - 1].evaluation.report, past[n - 1].feedback)
            && past[n - 1].evaluation.plan == PlanFor(past[..n - 1])
  {
    hide Inv, ResponseInv, PlanFor, OnlineBest, FeedbackOk, Readable;
    FinishedRound(cfg, t, files, past, n);
  }

  /** The incumbent after any number of finished rounds is a stored, publicly
      valid score of one of those rounds. */
  lemma BestIsStored(cfg: Config, t: Tables, files: Files, past: seq<Record>, m: nat)
    requires Inv(cfg, t, files, past) && m <= |past|
    ensures var best := OnlineBest(past[..m]);
            best.Some? ==>
              && 1 <= best.value.roundNumber == best.value.candidateId.round <= m
              && best.value.candidateId in t.scores && best.value.candidateId in t.candidates
              && SameUpToHidden(t.scores[best.value.candidateId], best.value)
              && (Searching(t) ==> t.scores[best.value.candidateId] == best.value)
              && FilesOf(files, best.value.roundNumber).candidate == Some(best.value.candidateId.source)
              && View(t, files, best.value.roundNumber).score == Some(t.scores[best.value.candidateId])
              && FilesOf(files, best.value.roundNumber).evaluation.Some?
              && FilesOf(files, best.value.roundNumber).evaluation.value.report.score == best.value
  {
    hide Inv, OnlineBest, SameUpToHidden, FeedbackOk, PlanFor;
    var best := OnlineBest(past[..m]);
    if best.Some? {
      BestIsRecorded(past[..m]);
      var i :| 0 <= i < m && past[..m][i].evaluation.report.score == best.value;
      assert past[..m][i] == past[i];
      RecordedScore(cfg, t, files, past, i + 1);
      CandidatesOf(cfg, t, files, past);
    }
  }

  lemma CandidatesOf(cfg: Config, t: Tables, files: Files, past: seq<Record>)
    requires Inv(cfg, t, files, past)
    ensures CandidatesInv(t, files)
  {
    hide RoundInv, BestInv, FinalInv, IsRecord, CandidatesInv;
  }

  lemma DecideNeedsValidity(report: Report, best: Option<CandidateScore>)
    requires Eligible(best)
    ensures OnlineComparison(report, best).decision.Selects() ==> report.score.IsPubliclyValid()
    ensures best.None? ==> (OnlineComparison(report, best).decision.Selects() <==> report.score.IsPubliclyValid())
  {
  }

  lemma ScoresPrefix(past: seq<Record>)
    requires past != []
    ensures Scores(past)[..|past| - 1] == Scores(past[..|past| - 1])
  {
  }

  /** Either replay has an incumbent as soon as one candidate is eligible. */
  lemma {:induction false} SomeBestOrNone(past: seq<Record>)
    ensures OnlineBest(past).Some? <==> UnpairedBest(past).Some?
    ensures OnlineBest(past).Some? <==> exists r :: r in past && r.evaluation.report.score.IsPubliclyValid()
    decreases |past|
  {
    hide OnlineComparison, ComparePublicCandidate, CandidateScore.IsPubliclyValid;
    if past != [] {
      var front, last := past[..|past| - 1], past[|past| - 1];
      SomeBestOrNone(front);
      ScoresPrefix(past);
      DecideNeedsValidity(last.evaluation.report, OnlineBest(front));
      UnpairedNeedsValidity(last.evaluation.report.score, UnpairedBest(front));
      assert past == front + [last];
      assert forall r | r in front :: r in past;
    }
  }

  lemma UnpairedNeedsValidity(score: Score, best: Option<CandidateScore>)
    requires Eligible(best)
    ensures Decide(score, best).Selects() ==> score.IsPubliclyValid()
    ensures best.None? ==> (Decide(score, best).Selects() <==> score.IsPubliclyValid())
  {
  }

  // ---------- the selected BEST ------

  /** What BEST can be while the current round has no feedback. */
  lemma BestBeforeFeedback(cfg: Config, t: Tables, files: Files, past: seq<Record>)
    requires Inv(cfg, t, files, past) && FilesOf(files, |past| + 1).feedback.None?
    ensures var v := View(t, files, |past| + 1);
            var reference := t.task.value.best;
            || reference == IdOf(OnlineBest(past))
            || (&& IsCurrent(t, past, |past| + 1) && v.score.Some? && v.files.evaluation.Some?
                && Selected(past, v.files.evaluation.value.report)
                && reference == Some(v.files.evaluation.value.report.score.candidateId))
  {
    hide RoundInv, FinalInv, IsRecord, CandidatesInv, OnlineBest, Selected;
  }

  // ---------- the list of scores ----------

  /** A strictly increasing list of exactly the numbers 1..m is the count to m. */
  lemma {:induction false} IncreasingCover(s: seq<int>, m: nat)
    requires forall i, j | 0 <= i < j < |s| :: s[i] < s[j]
    requires forall i | 0 <= i < |s| :: 1 <= s[i] <= m
    requires forall r | 1 <= r <= m :: r in s
    ensures |s| == m && forall i | 0 <= i < m :: s[i] == i + 1
  {
    if s == [] {
      assert m >= 1 ==> 1 in s;
    } else {
      assert 1 <= s[0] <= m;
      assert m in s;
      var front, last := s[..|s| - 1], s[|s| - 1];
      assert last == m;
      forall r | 1 <= r <= m - 1 ensures r in front {
        assert r in s;
        assert s == front + [last];
      }
      IncreasingCover(front, m - 1);
    }
  }

  /** How many rounds are scored: all finished ones and perhaps the current one. */
  function ScoredRounds(t: Tables, files: Files, past: seq<Record>): nat {
    if View(t, files, |past| + 1).score.Some? then |past| + 1 else |past|
  }

  lemma StoredScore(cfg: Config, t: Tables, files: Files, past: seq<Record>, id: CandidateId)
    requires Inv(cfg, t, files, past) && id in t.scores
    ensures 1 <= id.round <= ScoredRounds(t, files, past)
    ensures t.scores[id].candidateId == id && t.scores[id].roundNumber == id.round && t.scores[id].Valid()
    ensures View(t, files, id.round).score == Some(t.scores[id])
  {
    hide Inv, ResponseInv, FeedbackInv, PlanFor, OnlineBest;
    CandidatesOf(cfg, t, files, past);
    assert FilesOf(files, id.round).candidate == Some(id.source);
    OnlyCreatedRounds(cfg, t, files, past, id.round);
    RoundOf(cfg, t, files, past, id.round);
  }

  lemma OnlyCreatedRounds(cfg: Config, t: Tables, files: Files, past: seq<Record>, n: int)
    requires Inv(cfg, t, files, past) && FilesOf(files, n) != NO_FILES
    ensures t.task.Some? && 1 <= n <= t.task.value.currentRound <= |past| + 1
  {
    hide RoundInv, BestInv, FinalInv, IsRecord, CandidatesInv;
  }

  lemma ScoredIsStored(cfg: Config, t: Tables, files: Files, past: seq<Record>, n: nat)
    requires Inv(cfg, t, files, past) && 1 <= n <= ScoredRounds(t, files, past)
    ensures FilesOf(files, n).candidate.Some? && CandidateOf(n, FilesOf(files, n)) in t.scores
  {
    hide Inv, FeedbackOk, PlanFor, OnlineBest;
    if n <= |past| {
      RecordedScore(cfg, t, files, past, n);
    }
  }

  /** The listing of the scores is one row per scored round, in round order. */
  lemma ListingIsByRound(cfg: Config, t: Tables, files: Files, past: seq<Record>,
                         list: seq<CandidateScore>, ids: seq<CandidateId>)
    requires Inv(cfg, t, files, past) && IsListing(t.scores, list, ids)
    ensures |list| == ScoredRounds(t, files, past)
    ensures forall i | 0 <= i < |list| ::
              list[i].roundNumber == i + 1 && list[i].Valid() && View(t, files, i + 1).score == Some(list[i])
  {
    hide Inv, View;
    var m := ScoredRounds(t, files, past);
    var rounds := seq(|list|, i requires 0 <= i < |list| => list[i].roundNumber);
    forall i | 0 <= i < |list|
      ensures 1 <= rounds[i] <= m && ids[i].round == rounds[i] && list[i].Valid()
      ensures View(t, files, rounds[i]).score == Some(list[i])
    {
      StoredScore(cfg, t, files, past, ids[i]);
    }
    forall i, j | 0 <= i < j < |rounds| ensures rounds[i] < rounds[j] {
      if rounds[i] == rounds[j] {
        SameRoundSameId(cfg, t, files, past, ids[i], ids[j]);
      }
    }
    forall r | 1 <= r <= m ensures r in rounds {
      ScoredIsStored(cfg, t, files, past, r);
      var i :| 0 <= i < |ids| && ids[i] == CandidateOf(r, FilesOf(files, r));
      assert rounds[i] == r;
    }
    IncreasingCover(rounds, m);
  }

  lemma SameRoundSameId(cfg: Config, t: Tables, files: Files, past: seq<Record>, a: CandidateId, b: CandidateId)
    requires Inv(cfg, t, files, past) && a in t.scores && b in t.scores && a.round == b.round
    ensures a == b
  {
    hide Inv;
    CandidatesOf(cfg, t, files, past);
  }

  function EarlierScores(list: seq<CandidateScore>, beforeRound: int): seq<CandidateScore> {
    if list == [] then []
    else (if list[0].roundNumber < beforeRound then [list[0]] else []) + EarlierScores(list[1..], beforeRound)
  }

  lemma {:induction false} EarlierIsPrefix(list: seq<CandidateScore>, m: nat, first: int)
    requires m <= |list| && forall i | 0 <= i < |list| :: list[i].roundNumber == first + i
    ensures EarlierScores(list, first + m) == list[..m]
    decreases |list|
  {
    if list != [] {
      if m > 0 {
        EarlierIsPrefix(list[1..], m - 1, first + 1);
        assert list[..m] == [list[0]] + list[1..][..m - 1];
      } else {
        NothingEarlier(list, first);
      }
    }
  }

  lemma {:induction false} NothingEarlier(list: seq<CandidateScore>, beforeRound: int)
    requires forall i | 0 <= i < |list| :: list[i].roundNumber >= beforeRound
    ensures EarlierScores(list, beforeRound) == []
    decreases |list|
  {
    if list != [] {
      NothingEarlier(list[1..], beforeRound);
    }
  }

  /** The earlier rows of the current round's replay are the recorded scores. */
  lemma EarlierRows(cfg: Config, t: Tables, files: Files, past: seq<Record>,
                    list: seq<CandidateScore>, ids: seq<CandidateId>)
    requires Inv(cfg, t, files, past) && Searching(t) && IsListing(t.scores, list, ids)
    ensures EarlierScores(list, |past| + 1) == Scores(past)
  {
    hide Inv, FeedbackOk, PlanFor, OnlineBest, View, Scores, IsListing, FilesOf, SameUpToHidden, EarlierScores;
    ListingIsByRound(cfg, t, files, past, list, ids);
    EarlierIsPrefix(list, |past|, 1);
    forall i | 0 <= i < |past| ensures list[i] == Scores(past)[i] {
      RecordedScore(cfg, t, files, past, i + 1);
    }
  }

  // ---------- committed feedback ----------

  /** The finished rounds, and the current one once its feedback is written. */
  function Committed(past: seq<Record>, files: Files): seq<Record> {
    var f := FilesOf(files, |past| + 1);
    if f.response.Some? && f.evaluation.Some? && f.feedback.Some? then past + [RecordOf(f)] else past
  }

  /** The stored row of an incumbent. */
  function RowOf(t: Tables, best: Option<CandidateScore>): Option<CandidateScore> {
    if best.Some? then Lookup(t.scores, best.value.candidateId) else None
  }

  lemma CurrentFeedback(cfg: Config, t: Tables, files: Files, past: seq<Record>)
    requires Inv(cfg, t, files, past) && FilesOf(files, |past| + 1).feedback.Some?
    ensures IsCurrent(t, past, |past| + 1)
    ensures var f := FilesOf(files, |past| + 1);
            && f.response.Some? && f.evaluation.Some?
            && FeedbackOk(past, f.evaluation.value.report, f.feedback.value)
            && View(t, files, |past| + 1).score == Some(f.evaluation.value.report.score)
            && f.evaluation.value.report.score.candidateId in t.scores
            && f.evaluation.value.report.score.candidateId in t.candidates
            && t.scores[f.evaluation.value.report.score.candidateId] == f.evaluation.value.report.score
            && f.evaluation.value.report.score.roundNumber == |past| + 1
            && f.evaluation.value.report.score.candidateId.round == |past| + 1
            && t.task.value.best == f.feedback.value.bestAfter
            && Committed(past, files) == past + [RecordOf(f)]
  {
    hide Inv, FeedbackOk, PlanFor, OnlineBest, Readable;
    OnlyCreatedRounds(cfg, t, files, past, |past| + 1);
    CurrentRound(cfg, t, files, past, |past| + 1);
    ScoredRound(t, files, |past| + 1, past);
  }

  /** Every committed feedback names the incumbent after its round. */
  lemma CommittedFeedback(cfg: Config, t: Tables, files: Files, past: seq<Record>, i: nat)
    requires Inv(cfg, t, files, past) && i < |Committed(past, files)|
    ensures var committed := Committed(past, files);
            && FilesOf(files, i + 1).feedback == Some(committed[i].feedback)
            && FeedbackOk(committed[..i], committed[i].evaluation.report, committed[i].feedback)
            && committed[..i + 1] == committed[..i] + [committed[i]]
            && committed[i].feedback.bestAfter == IdOf(OnlineBest(committed[..i + 1]))
  {
    hide Inv, FeedbackOk, PlanFor, OnlineBest;
    var committed := Committed(past, files);
    if i < |past| {
      RecordedScore(cfg, t, files, past, i + 1);
      assert committed[..i] == past[..i];
    } else {
      CurrentFeedback(cfg, t, files, past);
      assert committed[..i] == past;
    }
    assert committed[..i + 1] == committed[..i] + [committed[i]];
    FeedbackNamesNextBest(committed[..i], committed[i]);
  }

  /** An incumbent has a stored, publicly valid row of one of the first rounds. */
  ghost predicate HasRow(t: Tables, best: Option<CandidateScore>, rounds: nat) {
    best.Some? ==>
      var row := RowOf(t, best);
      && row.Some? && row.value.IsPubliclyValid() && row.value.Valid()
      && row.value.candidateId == best.value.candidateId
      && 1 <= row.value.roundNumber == best.value.candidateId.round <= rounds
      && SameUpToHidden(row.value, best.value)
      && best.value.candidateId in t.candidates
      && (Searching(t) ==> row == best)
  }

  lemma CommittedBest(cfg: Config, t: Tables, files: Files, past: seq<Record>, m: nat)
    requires Inv(cfg, t, files, past) && m <= |Committed(past, files)|
    ensures HasRow(t, OnlineBest(Committed(past, files)[..m]), m)
  {
    hide Inv, HasRow, OnlineBest;
    if m <= |past| {
      assert Committed(past, files)[..m] == past[..m];
      PastBestHasRow(cfg, t, files, past, m);
    } else {
      CurrentFeedbackSome(past, files);
      CurrentBestHasRow(cfg, t, files, past);
      assert Committed(past, files)[..m] == Committed(past, files);
    }
  }

  lemma PastBestHasRow(cfg: Config, t: Tables, files: Files, past: seq<Record>, m: nat)
    requires Inv(cfg, t, files, past) && m <= |past|
    ensures HasRow(t, OnlineBest(past[..m]), m)
  {
    hide Inv, View;
    BestIsStored(cfg, t, files, past, m);
  }

  lemma CurrentBestHasRow(cfg: Config, t: Tables, files: Files, past: seq<Record>)
    requires Inv(cfg, t, files, past) && FilesOf(files, |past| + 1).feedback.Some?
    ensures HasRow(t, OnlineBest(Committed(past, files)), |past| + 1)
  {
    hide Inv, PlanFor, OnlineBest, OnlineComparison, FeedbackOk, View;
    CurrentFeedback(cfg, t, files, past);
    assert past[..|past|] == past;
    PastBestHasRow(cfg, t, files, past, |past|);
    NextBestOf(past, RecordOf(FilesOf(files, |past| + 1)));
  }

  lemma CurrentFeedbackSome(past: seq<Record>, files: Files)
    requires |Committed(past, files)| > |past|
    ensures FilesOf(files, |past| + 1).feedback.Some?
  {
  }

  lemma NextBestOf(past: seq<Record>, r: Record)
    ensures OnlineBest(past + [r]) == NextBest(OnlineBest(past), r.evaluation.report)
    ensures OnlineBest(past + [r]) == OnlineBest(past)
            || OnlineBest(past + [r]) == Some(r.evaluation.report.score)
  {
    hide OnlineComparison;
    assert (past + [r])[..|past|] == past;
  }

  /** A feedback that names no incumbent did not select its candidate. */
  lemma NoBestNoSelection(before: seq<Record>, r: Record)
    requires FeedbackOk(before, r.evaluation.report, r.feedback) && r.feedback.bestAfter.None?
    ensures !r.feedback.comparison.decision.Selects() && OnlineBest(before).None? && OnlineBest(before + [r]).None?
  {
    hide UnpairedBest, OnlineComparison;
    NextBestOf(before, r);
  }

  // ---------- which rounds are open ----------

  /** The rounds table has exactly the created rounds; only the current is open. */
  lemma OpenRounds(cfg: Config, t: Tables, files: Files, past: seq<Record>, n: int)
    requires Inv(cfg, t, files, past)
    ensures t.task.Some? && |past| <= t.task.value.currentRound <= |past| + 1 && t.task.value.currentRound <= cfg.rounds
    ensures n in t.rounds <==> 1 <= n <= t.task.value.currentRound
    ensures 1 <= n <= |past| ==> n in t.rounds && t.rounds[n].state == RoundFinished
    ensures n in t.rounds && t.rounds[n].state != RoundFinished ==> IsCurrent(t, past, n)
    ensures n in t.rounds && n > |past| ==> IsCurrent(t, past, n) && Searching(t) && t.rounds[n].state != RoundFinished
    ensures Searching(t) && |past| < cfg.rounds ==> files.task.finalResult.None?
    ensures t.task.value.state.TaskCreated? ==> past == []
  {
    hide RoundInv, BestInv, CandidatesInv, OnlineBest, Gated, GatedResult;
    if 1 <= n <= |past| {
      assert IsRecord(View(t, files, n), past[n - 1]);
    }
  }

  lemma RecordRead(cfg: Config, t: Tables, files: Files, past: seq<Record>, n: nat)
    requires Inv(cfg, t, files, past) && 1 <= n <= |past|
    ensures var f := FilesOf(files, n);
            f.response.Some? && f.evaluation.Some? && f.feedback.Some? && RecordOf(f) == past[n - 1]
  {
    hide Inv, RoundInv;
    FinishedRound(cfg, t, files, past, n);
  }

  /** A scored round has feedback exactly when it is committed. */
  lemma ScoredRoundsCommit(cfg: Config, t: Tables, files: Files, past: seq<Record>, i: nat)
    requires Inv(cfg, t, files, past) && i < ScoredRounds(t, files, past)
    ensures |Committed(past, files)| <= ScoredRounds(t, files, past)
    ensures FilesOf(files, i + 1).feedback.Some? <==> i < |Committed(past, files)|
    ensures i < |Committed(past, files)| ==>
              var committed := Committed(past, files);
              var feedback := committed[i].feedback;
              && FilesOf(files, i + 1).feedback == Some(feedback)
              && feedback.bestAfter == IdOf(OnlineBest(committed[..i + 1]))
              && HasRow(t, OnlineBest(committed[..i + 1]), i + 1)
              && (feedback.bestAfter.None? ==>
                    !feedback.comparison.decision.Selects()
                    && OnlineBest(committed[..i]).None? && OnlineBest(committed[..i + 1]).None?)
  {
    hide Inv, FeedbackOk, OnlineBest, HasRow, View;
    if FilesOf(files, |past| + 1).feedback.Some? {
      CurrentFeedback(cfg, t, files, past);
    }
    if i < |Committed(past, files)| {
      CommittedFeedback(cfg, t, files, past, i);
      CommittedBest(cfg, t, files, past, i + 1);
      if Committed(past, files)[i].feedback.bestAfter.None? {
        NoBestNoSelection(Committed(past, files)[..i], Committed(past, files)[i]);
      }
    }
  }

  lemma NothingScored(cfg: Config, t: Tables, files: Files, past: seq<Record>)
    requires Inv(cfg, t, files, past) && ScoredRounds(t, files, past) == 0
    ensures Committed(past, files) == []
  {
    hide Inv, FeedbackOk, OnlineBest;
    if FilesOf(files, |past| + 1).feedback.Some? {
      CurrentFeedback(cfg, t, files, past);
    }
  }

  /** The selected BEST agrees with the last committed feedback, or a candidate of a
      later round is selected already. */
  lemma BestFollowsFeedback(cfg: Config, t: Tables, files: Files, past: seq<Record>)
    requires Inv(cfg, t, files, past)
    ensures t.task.Some?
    ensures var committed, reference := Committed(past, files), t.task.value.best;
            || reference == IdOf(OnlineBest(committed))
            || (&& committed == past && IsCurrent(t, past, |past| + 1)
                && reference.Some? && reference.value in t.scores
                && t.scores[reference.value].roundNumber == |past| + 1)
  {
    hide Inv, FeedbackOk, OnlineBest, PlanFor, Selected;
    OpenRounds(cfg, t, files, past, 0);
    if FilesOf(files, |past| + 1).feedback.Some? {
      CurrentFeedback(cfg, t, files, past);
      FeedbackNamesNextBest(past, RecordOf(FilesOf(files, |past| + 1)));
    } else {
      BestBeforeFeedback(cfg, t, files, past);
      if t.task.value.best != IdOf(OnlineBest(past)) {
        CurrentRound(cfg, t, files, past, |past| + 1);
        ScoredRound(t, files, |past| + 1, past);
        ScoredHere(|past| + 1, past, View(t, files, |past| + 1));
      }
    }
  }

  lemma ScoredHere(n: nat, before: seq<Record>, v: RoundView)
    requires RoundInv(n, before, v, true) && v.score.Some? && v.files.evaluation.Some?
    ensures v.score.value == v.files.evaluation.value.report.score && v.score.value.roundNumber == n
  {
    hide ResponseInv, FeedbackInv, PlanFor;
  }
}
