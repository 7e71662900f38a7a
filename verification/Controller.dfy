/** The controller of one task.  The process may die before any durable write;
    a resumed run starts over from round one with nothing but the durable state. */
module Controller {
  import opened Wrappers
  import opened JsonValue
  import opened StateMachine
  import opened Scoring
  import opened Trajectory
  import opened ModelResponses
  import opened StateStore
  import opened ControllerModel
  import opened ControllerSteps
  import opened ControllerTask
  import opened ControllerFacts

  datatype Refusal =
    | StoreRefused(error: StoreError) | ArtifactConflict | MissingArtifact | UnreadableResponse
    | PhaseDisagrees | EligibleModelFailure | WrongIdentity | InvalidOnlineBest
    | StateAhead(round: nat) | RetryRequired(round: nat)
    | HiddenSeedMissing | NoSelectedCandidate | TerminalDisagrees

  /** Why a run ended early: the process died; the provider or the backend gave no
      answer, or one that raises or cannot be stored; or a consistency guard refused. */
  datatype Stop = Crashed | Unanswered | Refused(reason: Refusal)

  /** The model provider, asked once per request of a round. */
  type Provider = (nat, Request) -> Option<Completion>

  datatype EvaluationRequest = EvaluationRequest(candidate: CandidateId, incumbent: Option<CandidateId>, hidden: bool)

  /** What the evaluation backend reports about a candidate. */
  datatype Measurement = Measurement(outcome: Outcome, score: CandidateScore)

  type Backend = EvaluationRequest -> Option<Measurement>

  /** A report carries the identity of its request; an impossible score is an error. */
  function ReportOf(request: EvaluationRequest, measured: Option<Measurement>): (report: Option<Report>)
    ensures report.Some? ==>
              && report.value.score.candidateId == request.candidate
              && report.value.score.roundNumber == request.candidate.round
  {
    if measured.None? then None
    else
      var score := measured.value.score.(
        candidateId := request.candidate, roundNumber := request.candidate.round,
        hiddenCorrectnessPassed := if request.hidden then measured.value.score.hiddenCorrectnessPassed else None);
      if score.Valid() then Some(Report(measured.value.outcome, score)) else None
  }

  /** The raw replies are part of the exchange that is committed. */
  predicate AllStorable(completions: seq<Completion>) {
    forall c | c in completions :: Encodable(c.raw)
  }

  /** The artifact tree: a file is created once and then only confirmed. */
  class RunArtifacts {
    var files: Files

    constructor ()
      ensures files == Files(map[], TaskFiles(None, None, None))
    {
      files := Files(map[], TaskFiles(None, None, None));
    }

    method Put(a: Artifact) returns (ok: bool)
      modifies this
      ensures ok == !ConflictsWith(old(files), a)
      ensures files == if ok then WithArtifact(old(files), a) else old(files)
    {
      ok := !ConflictsWith(files, a);
      if ok {
        files := WithArtifact(files, a);
      }
    }
  }

  class ExperimentController {
    const cfg: Config
    const store: SQLiteStateStore
    const artifacts: RunArtifacts
    /** The finished rounds, for the proofs. */
    ghost var past: seq<Record>

    constructor (cfg: Config, store: SQLiteStateStore, artifacts: RunArtifacts)
      ensures this.cfg == cfg && this.store == store && this.artifacts == artifacts && past == []
    {
      this.cfg, this.store, this.artifacts := cfg, store, artifacts;
      past := [];
    }

    ghost predicate Holds()
      reads this, store, artifacts
    {
      Inv(cfg, store.tables, artifacts.files, past)
    }

    ghost function V(n: int): RoundView
      reads store, artifacts
    {
      View(store.tables, artifacts.files, n)
    }

    /** The states the round entered, as the event log has them. */
    ghost function Path(n: nat): seq<RoundState>
      reads store
    {
      RoundPath(store.tables.events, n)
    }

    /** The states it entered and those it has still to enter up to its response. */
    ghost function Opening(n: nat): seq<RoundState>
      reads store
    {
      Path(n) + OpeningToGo(Lookup(store.tables.rounds, n))
    }

    /** A created round of a task that is not over. */
    ghost predicate Working(n: nat)
      reads this, store, artifacts
    {
      && Holds() && store.tables.task.Some? && !Terminal(store.tables)
      && 1 <= n <= store.tables.task.value.currentRound
    }

    ghost predicate Current(n: nat)
      reads this, store, artifacts
    {
      Holds() && IsCurrent(store.tables, past, n) && n in store.tables.rounds
    }

    // ---------- durable writes ----------

    /** One transaction; the process may die before it commits. */
    method Persist(w: Write) returns (r: Result<(), Stop>)
      modifies store
      ensures r.Ok? ==> Attempt(old(store.tables), w).Ok? && store.tables == Apply(old(store.tables), w)
      ensures r.Err? ==> store.tables == old(store.tables)
      ensures r.Err? ==> r.error.Crashed? ||
                         (Attempt(old(store.tables), w).Err?
                          && r.error == Refused(StoreRefused(Attempt(old(store.tables), w).error)))
    {
      hide StrictStateMachine.CanTransition, CandidateScore.IsPubliclyValid;
      if * {
        return Err(Crashed);
      }
      var failure := None;
      match w {
        case CreatingTask(spec) =>
          var row := store.CreateOrGetTask(spec);
          failure := if row.Err? then Some(row.error) else None;
        case MovingTask(target, expected) =>
          var row := store.MoveTask(target, expected);
          failure := if row.Err? then Some(row.error) else None;
        case CreatingRound(number) =>
          var row := store.CreateOrGetRound(number);
          failure := if row.Err? then Some(row.error) else None;
        case MovingRound(number, target, expected) =>
          var row := store.MoveRound(number, target, expected);
          failure := if row.Err? then Some(row.error) else None;
        case Registering(id, candidate) =>
          var row := store.Register(id, candidate);
          failure := if row.Err? then Some(row.error) else None;
        case Scoring(score) =>
          var row := store.SaveCandidateScore(score);
          failure := if row.Err? then Some(row.error) else None;
        case Selecting(id, reason) =>
          var row := store.SetBestCandidate(id, reason);
          failure := if row.Err? then Some(row.error) else None;
      }
      return if failure.Some? then Err(Refused(StoreRefused(failure.value))) else Ok(());
    }

    /** One file; the process may die before it is linked into place. */
    method Commit(a: Artifact) returns (r: Result<(), Stop>)
      modifies artifacts
      ensures r.Ok? ==> !ConflictsWith(old(artifacts.files), a)
      ensures r.Ok? ==> artifacts.files == WithArtifact(old(artifacts.files), a)
      ensures r.Err? ==> artifacts.files == old(artifacts.files)
      ensures r.Err? ==> r.error.Crashed? ||
                         (ConflictsWith(old(artifacts.files), a) && r.error == Refused(ArtifactConflict))
    {
      if * {
        return Err(Crashed);
      }
      var ok := artifacts.Put(a);
      return if ok then Ok(()) else Err(Refused(ArtifactConflict));
    }

    /** A file of a round: either it is there already, or it is new and fits. */
    method CommitRound(a: Artifact) returns (r: Result<(), Stop>)
      requires Holds() && IsRoundArtifact(a)
      requires AlreadyCommitted(artifacts.files, a)
               || (IsCurrent(store.tables, past, a.round)
                   && Fits(a, past, V(a.round), store.tables.task.value.best)
                   && !ConflictsWith(artifacts.files, a))
      modifies artifacts
      ensures Holds()
      ensures r.Ok? ==> artifacts.files == WithArtifact(old(artifacts.files), a)
      ensures r.Err? ==> r.error.Crashed? && artifacts.files == old(artifacts.files)
      ensures old(AlreadyCommitted(artifacts.files, a)) ==> artifacts.files == old(artifacts.files)
      ensures V(a.round).row == old(V(a.round).row)
    {
      hide Inv, Fits, ConflictsWith, WithArtifact;
      if AlreadyCommitted(artifacts.files, a) {
        RecommitIsIdle(artifacts.files, a);
      } else {
        CommitStep(cfg, store.tables, artifacts.files, past, a);
      }
      r := Commit(a);
    }

    /** A transition of the current round, short of finishing it. */
    method MoveRound(n: nat, target: RoundState) returns (r: Result<(), Stop>)
      requires Current(n) && ROUND_MACHINE.CanTransition(store.tables.rounds[n].state, target)
      requires ReadyFor(target, FilesOf(artifacts.files, n), V(n).score.Some?)
      modifies store
      ensures Current(n) && store.tables.task == old(store.tables.task)
      ensures r.Ok? ==> V(n) == Moved(old(V(n)), target) && Path(n) == old(Path(n)) + [target]
      ensures r.Err? ==> r.error.Crashed? && store.tables == old(store.tables)
    {
      hide Inv, ReadyFor, StrictStateMachine.CanTransition, RoundPath;
      MoveCurrent(cfg, store.tables, artifacts.files, past, n, target);
      PathAfterMove(store.tables, n, target, Some(store.tables.rounds[n].version));
      r := Persist(MovingRound(n, target, Some(store.tables.rounds[n].version)));
    }

    // ---------- the incumbent ----------

    /** The incumbent before the round under way: the candidate selected as BEST
        if it is from an earlier round, otherwise a replay over earlier scores. */
    method BestContext(beforeRound: nat) returns (best: Option<CandidateScore>)
      requires Holds() && Searching(store.tables) && beforeRound == |past| + 1
      requires FilesOf(artifacts.files, beforeRound).feedback.None?
      ensures best == if store.tables.task.value.best == IdOf(OnlineBest(past)) then OnlineBest(past)
                      else UnpairedBest(past)
    {
      hide Inv, OnlineBest, UnpairedBest, IsListing, Scores, Bests, EarlierScores;
      WhoIsBest(cfg, store.tables, artifacts.files, past);

      var reference := store.tables.task.value.best;
      best := if reference.Some? then Lookup(store.tables.scores, reference.value) else None;
      if best.Some? && best.value.roundNumber >= beforeRound {
        best := None;
      }
      if best.None? {
        var scores := store.ListCandidateScores();
        ghost var ids :| IsListing(store.tables.scores, scores, ids);
        EarlierRows(cfg, store.tables, artifacts.files, past, scores, ids);
        best := FoldOnlineBest(EarlierScores(scores, beforeRound));
        assert best == UnpairedBest(past) by { UnpairedIsFold(past); }
      }
    }

    // ---------- opening a round ----------

    /** Everything the earlier rounds committed, in round order. */
    method ReadHistory(beforeRound: nat) returns (history: seq<Record>)
      requires Holds() && beforeRound == |past| + 1
      ensures history == past
    {
      hide Inv, FilesOf;
      history := [];
      var n := 1;
      while n < beforeRound
        invariant 1 <= n <= beforeRound && history == past[..n - 1]
      {
        var f := FilesOf(artifacts.files, n);
        RecordRead(cfg, store.tables, artifacts.files, past, n);
        assert past[..n] == past[..n - 1] + [past[n - 1]];
        if f.response.Some? && f.evaluation.Some? && f.feedback.Some? {
          history := history + [RecordOf(f)];
        }
        n := n + 1;
      }
      assert past[..n - 1] == past;
    }

    method BuildPrompt(n: nat, plan: Plan) returns (prompt: Prompt)
      requires Current(n) && plan == PlanFor(past)
      requires store.tables.rounds[n].state.RoundCreated?
      ensures prompt == PromptFor(n, past)
    {
      hide Inv, OnlineBest, UnpairedBest, PlanFor;
      CurrentRound(cfg, store.tables, artifacts.files, past, n);
      NewRoundBest(n, past, V(n), store.tables.task.value.best);
      var history := ReadHistory(n);
      var best := None;
      if n > 1 {
        best := BestContext(n);
      }
      prompt := Prompt(n, plan, IdOf(best), history);
    }

    method CommitPrompt(n: nat, plan: Plan) returns (r: Result<(), Stop>)
      requires Current(n) && plan == PlanFor(past) && store.tables.rounds[n].state.RoundCreated?
      modifies store, artifacts
      ensures Current(n) && store.tables.task == old(store.tables.task)
      ensures r.Ok? ==> store.tables.rounds[n].state == PromptCommitted && Path(n) == old(Path(n)) + [PromptCommitted]
      ensures r.Err? ==> r.error.Crashed? && store.tables == old(store.tables)
      ensures FilesOf(artifacts.files, n).evaluation == old(FilesOf(artifacts.files, n).evaluation)
    {
      hide Inv, RoundInv, BestInv, CandidatesInv, Fits, PromptFor, PlanFor, ConflictsWith, RoundPath, WithArtifact;
      hide StrictStateMachine.CanTransition;
      var prompt := BuildPrompt(n, plan);
      CurrentRound(cfg, store.tables, artifacts.files, past, n);
      PromptFits(n, past, artifacts.files, V(n), store.tables.task.value.best);
      var _ :- CommitRound(PromptFile(n, prompt));
      Written(artifacts.files, old(artifacts.files), PromptFile(n, prompt));
      FirstEdges();
      var _ :- MoveRound(n, PromptCommitted);
      return Ok(());
    }

    method CreateRound(n: nat) returns (r: Result<(), Stop>)
      requires Holds() && n == |past| + 1 <= cfg.rounds && n !in store.tables.rounds
      requires Searching(store.tables) && NoRetry(past)
      modifies store
      ensures Holds() && store.tables.task.Some?
      ensures store.tables.task.value.state == old(store.tables.task.value.state)
      ensures r.Ok? ==> Current(n) && store.tables.rounds[n].state.RoundCreated?
      ensures r.Err? ==> r.error.Crashed? && store.tables == old(store.tables)
      ensures old(Path(n)) <= Path(n) && Opening(n) == old(Opening(n))
    {
      hide Inv, NoRetry, RoundPath, OpeningToGo;
      OpenRounds(cfg, store.tables, artifacts.files, past, n);
      CreateRoundStep(cfg, store.tables, artifacts.files, past);
      PathAfterCreation(store.tables, n);
      Opened(Path(n), None, RoundRow(RoundCreated, 1));
      r := Persist(CreatingRound(n));
    }

    /** Creates the round, commits its prompt, and records the request. */
    method OpenRound(n: nat, plan: Plan) returns (r: Result<(), Stop>)
      requires Holds() && !Terminal(store.tables) && !store.tables.task.value.state.TaskCreated?
      requires 1 <= n <= cfg.rounds && n <= |past| + 1 && plan == PlanFor(past[..n - 1])
      requires n == |past| + 1 ==> Searching(store.tables) && NoRetry(past)
      modifies store, artifacts
      ensures Holds() && store.tables.task.Some?
      ensures store.tables.task.value.state == old(store.tables.task.value.state)
      ensures r.Ok? ==> Working(n) && n in store.tables.rounds && RoundRank(store.tables.rounds[n].state) >= 2
      ensures r.Err? ==> r.error.Crashed?
      ensures old(n in store.tables.rounds && RoundRank(store.tables.rounds[n].state) >= 2) ==>
                store.tables == old(store.tables) && artifacts.files == old(artifacts.files)
      ensures r.Ok? && !old(n in store.tables.rounds && RoundRank(store.tables.rounds[n].state) >= 2) ==>
                store.tables.rounds[n].state == ModelRequestSent
      ensures old(Path(n)) <= Path(n) && Opening(n) == old(Opening(n))
      ensures FilesOf(artifacts.files, n).evaluation == old(FilesOf(artifacts.files, n).evaluation)
    {
      hide Inv, RoundInv, BestInv, CandidatesInv, NoRetry, PlanFor, FilesOf;
      hide StrictStateMachine.CanTransition, RoundPath, OpeningToGo;
      OpenRounds(cfg, store.tables, artifacts.files, past, n);
      if n !in store.tables.rounds {
        var _ :- CreateRound(n);
      }
      OpenRounds(cfg, store.tables, artifacts.files, past, n);
      if store.tables.rounds[n].state.RoundCreated? {
        assert past[..n - 1] == past;
        ghost var path, row := Path(n), store.tables.rounds[n];
        var _ :- CommitPrompt(n, plan);
        Opened(path, Some(row), store.tables.rounds[n]);
        OpenRounds(cfg, store.tables, artifacts.files, past, n);
      }
      PromptIsThere(cfg, store.tables, artifacts.files, past, n);
      if FilesOf(artifacts.files, n).prompt.None? {
        return Err(Refused(MissingArtifact));
      }
      if store.tables.rounds[n].state.PromptCommitted? {
        FirstEdges();
        RequestReady(artifacts.files, n, V(n).score.Some?);
        ghost var path, row := Path(n), store.tables.rounds[n];
        var _ :- MoveRound(n, ModelRequestSent);
        Opened(path, Some(row), store.tables.rounds[n]);
        OpenRounds(cfg, store.tables, artifacts.files, past, n);
      }
      return Ok(());
    }

    // ---------- the model response ----------

    /** The response of a committed exchange, written out as its own file. */
    method MaterializeExchange(n: nat, exchange: map<string, Json>, allowLegacy: bool) returns (r: Result<(), Stop>)
      requires Current(n) && store.tables.rounds[n].state.ModelRequestSent?
      requires FilesOf(artifacts.files, n).exchange == Some(exchange)
      requires FilesOf(artifacts.files, n).response.None?
      requires var verdict := Validate(Obj(exchange), Some(n), allowLegacy);
               verdict.Ok? && verdict.value.ToDict() == exchange
      modifies artifacts
      ensures Current(n)
      ensures r.Ok? ==> FilesOf(artifacts.files, n)
                        == old(FilesOf(artifacts.files, n)).(response := Some(exchange))
      ensures r.Err? ==> r.error.Crashed?
    {
      hide Inv, Validate, ModelResponse.ToDict, Fits, ConflictsWith, WithArtifact;
      var verdict := ValidateModelResponse(Obj(exchange), Some(n), allowLegacy);
      if verdict.Err? {
        return Err(Refused(UnreadableResponse));
      }
      ExchangedResponseFits(cfg, store.tables, artifacts.files, past, n);
      var _ :- CommitRound(ResponseFile(n, verdict.value.ToDict()));
      Written(artifacts.files, old(artifacts.files), ResponseFile(n, verdict.value.ToDict()));
      return Ok(());
    }

    /** The stand-in response of a failed exchange. */
    method MaterializeFailure(n: nat, error: ResponseError) returns (r: Result<(), Stop>)
      requires Current(n) && store.tables.rounds[n].state.ModelRequestSent?
      requires FilesOf(artifacts.files, n).failureExchange == Some(error)
      requires FilesOf(artifacts.files, n).response.None?
      modifies artifacts
      ensures Current(n)
      ensures r.Ok? ==> FilesOf(artifacts.files, n)
                        == old(FilesOf(artifacts.files, n)).(modelFailure := Some(error),
                                                             response := Some(SyntheticResponse(n)))
      ensures r.Err? ==> r.error.Crashed?
    {
      hide Inv, Validate, Fits, SyntheticResponse, ConflictsWith, WithArtifact;
      FailureFits(cfg, store.tables, artifacts.files, past, n);
      var _ :- CommitRound(ModelFailureFile(n, error));
      Written(artifacts.files, old(artifacts.files), ModelFailureFile(n, error));
      var verdict := ValidateModelResponse(Obj(SyntheticResponse(n)), Some(n), true);
      SyntheticIsReadable(n);
      if verdict.Err? {
        return Err(Refused(UnreadableResponse));
      }
      SyntheticFits(cfg, store.tables, artifacts.files, past, n);
      label Before:
      var _ :- CommitRound(ResponseFile(n, SyntheticResponse(n)));
      Written(artifacts.files, old@Before(artifacts.files), ResponseFile(n, SyntheticResponse(n)));
      return Ok(());
    }

    /** The first valid reply of the provider prints as `fields`. */
    ghost predicate Answers(gateway: Gateway, n: nat, fields: map<string, Json>) {
      exists k: nat ::
        && k <= cfg.maximumFormatRetries && AllRejectedBefore(gateway, Some(n), k)
        && ReplyAt(gateway, Some(n), k).Some?
        && var verdict := ValidateCompletion(ReplyAt(gateway, Some(n), k).value, Some(n));
           verdict.Ok? && verdict.value.ToDict() == fields
    }

    /** The provider gives, after rejected replies only, no reply, one that raises
        another exception, or one that cannot be stored. */
    ghost predicate NothingToKeep(gateway: Gateway, n: nat) {
      exists k: nat ::
        && k <= cfg.maximumFormatRetries && AllRejectedBefore(gateway, Some(n), k)
        && var reply := ReplyAt(gateway, Some(n), k);
           (reply.Some? ==>
              || ReplyEscapes(reply.value, Some(n)) || !Encodable(reply.value.raw)
              || var verdict := ValidateCompletion(reply.value, Some(n));
                 verdict.Ok? && !Encodable(Obj(verdict.value.ToDict())))
    }

    /** The response of the round: what is committed, as far as it got, or a new
        exchange with the provider.  Only malformed output consumes the round, and
        the provider decides nothing once an exchange is committed. */
    method ObtainResponse(n: nat, provider: Provider) returns (r: Result<(), Stop>)
      requires Current(n) && store.tables.rounds[n].state.ModelRequestSent?
      modifies store, artifacts
      ensures Current(n) && store.tables.task == old(store.tables.task)
      ensures r.Ok? ==> store.tables.rounds[n].state == ModelResponseCommitted
      ensures r.Err? ==> r.error.Crashed?
                         || (r.error.Unanswered? && NothingToKeep(request => provider(n, request), n)
                             && artifacts.files == old(artifacts.files))
      ensures r.Err? ==> store.tables == old(store.tables)
      ensures r.Ok? ==> FilesOf(artifacts.files, n).evaluation == old(FilesOf(artifacts.files, n).evaluation)
      ensures old(Path(n)) <= Path(n) && Opening(n) == old(Opening(n))
      ensures var before, f := old(FilesOf(artifacts.files, n)), FilesOf(artifacts.files, n);
              var gateway := request => provider(n, request);
              && (before.response.Some? || before.exchange.Some? || before.failureExchange.Some? ==>
                    r.Err? ==> r.error.Crashed?)
              && (r.Ok? ==>
                    if before.response.Some? then f == before
                    else if before.exchange.Some? then f == before.(response := before.exchange)
                    else if before.failureExchange.Some? then
                      f == before.(modelFailure := before.failureExchange, response := Some(SyntheticResponse(n)))
                    else if f.exchange.Some? then f.response == f.exchange && Answers(gateway, n, f.exchange.value)
                    else f.response == Some(SyntheticResponse(n))
                         && AllRejectedBefore(gateway, Some(n), cfg.maximumFormatRetries + 1))
    {
      hide Inv, RoundInv, Validate, ValidateCompletion, ReplyAt, IsRejected, Fits, ConflictsWith, WithArtifact;
      hide StrictStateMachine.CanTransition, ModelResponse.ToDict, SyntheticResponse, AllRejectedBefore;
      hide RoundPath, OpeningToGo, NothingToKeep;
      CommittedResponse(cfg, store.tables, artifacts.files, past, n);
      var f := FilesOf(artifacts.files, n);
      if f.response.Some? {
        var verdict := ValidateModelResponse(Obj(f.response.value), Some(n), true);
        if verdict.Err? {
          return Err(Refused(UnreadableResponse));
        }
      } else if f.exchange.Some? {
        var _ :- MaterializeExchange(n, f.exchange.value, true);
      } else if f.failureExchange.Some? {
        var _ :- MaterializeFailure(n, f.failureExchange.value);
      } else {
        var _ :- CallModel(n, provider);
      }
      FirstEdges();
      ResponseReady(artifacts.files, n, V(n).score.Some?);
      ghost var path, row := Path(n), store.tables.rounds[n];
      var _ :- MoveRound(n, ModelResponseCommitted);
      Opened(path, Some(row), store.tables.rounds[n]);
      return Ok(());
    }

    lemma UnstorableReply(gateway: Gateway, n: nat, completions: seq<Completion>)
      requires 1 <= |completions| <= cfg.maximumFormatRetries + 1 && !AllStorable(completions)
      requires forall k | 0 <= k < |completions| :: ReplyAt(gateway, Some(n), k) == Some(completions[k])
      requires AllRejectedBefore(gateway, Some(n), |completions| - 1)
      ensures NothingToKeep(gateway, n)
    {
      hide ReplyAt, IsRejected, ReplyEscapes, ValidateCompletion, Encodable;
      var k :| 0 <= k < |completions| && !Encodable(completions[k].raw);
      assert AllRejectedBefore(gateway, Some(n), k) && ReplyAt(gateway, Some(n), k) == Some(completions[k]);
    }

    lemma RejectedBefore(gateway: Gateway, n: nat, k: nat)
      requires AllRejectedBefore(gateway, Some(n), k + 1)
      ensures AllRejectedBefore(gateway, Some(n), k)
    {
    }

    lemma UnansweredRequest(gateway: Gateway, n: nat)
      requires exists k :: 0 <= k <= cfg.maximumFormatRetries
                           && (EscapesAt(gateway, Some(n), k) || UnansweredAt(gateway, Some(n), k))
      ensures NothingToKeep(gateway, n)
    {
      hide ReplyAt, AllRejectedBefore, ReplyEscapes, ValidateCompletion, Encodable;
      var k :| 0 <= k <= cfg.maximumFormatRetries
               && (EscapesAt(gateway, Some(n), k) || UnansweredAt(gateway, Some(n), k));
      assert AllRejectedBefore(gateway, Some(n), k);
    }

    /** Asks the provider and commits the exchange, failed or not, in front of the
        files made from it. */
    method CallModel(n: nat, provider: Provider) returns (r: Result<(), Stop>)
      requires Current(n) && store.tables.rounds[n].state.ModelRequestSent?
      requires var f := FilesOf(artifacts.files, n); f.response.None? && f.exchange.None? && f.failureExchange.None?
      modifies artifacts
      ensures Current(n)
      ensures r.Err? ==> r.error.Crashed?
                         || (r.error.Unanswered? && NothingToKeep(request => provider(n, request), n)
                             && artifacts.files == old(artifacts.files))
      ensures var f := FilesOf(artifacts.files, n);
              var gateway := request => provider(n, request);
              r.Ok? ==>
                && f == old(FilesOf(artifacts.files, n)).(
                     exchange := f.exchange, failureExchange := f.failureExchange,
                     modelFailure := f.modelFailure, response := f.response)
                && if f.exchange.Some? then f.response == f.exchange && Answers(gateway, n, f.exchange.value)
                   else f.response == Some(SyntheticResponse(n))
                        && AllRejectedBefore(gateway, Some(n), cfg.maximumFormatRetries + 1)
    {
      hide Inv, RoundInv, Validate, ValidateCompletion, ReplyAt, IsRejected, Fits, ConflictsWith, WithArtifact;
      hide ModelResponse.ToDict, SyntheticResponse, AllRejectedBefore, Encodable, StrictStateMachine.CanTransition;
      var gateway := request => provider(n, request);
      var outcome := CompleteModelResponse(gateway, Some(n), cfg.maximumFormatRetries);
      match outcome {
        case Validated(response, repairs, completions) =>
          if !AllStorable(completions) {
            UnstorableReply(gateway, n, completions);
            return Err(Unanswered);
          }
          if !Encodable(Obj(response.ToDict())) {
            assert ReplyAt(gateway, Some(n), repairs) == Some(completions[repairs]);
            return Err(Unanswered);
          }
          LiveResponseIsStable(completions[repairs], n);
          ExchangeFits(cfg, store.tables, artifacts.files, past, n, response);
          var _ :- CommitRound(ExchangeFile(n, response.ToDict()));
          Written(artifacts.files, old(artifacts.files), ExchangeFile(n, response.ToDict()));
          var _ :- MaterializeExchange(n, response.ToDict(), false);
        case AttemptsExhausted(error, completions) =>
          if !AllStorable(completions) {
            RejectedBefore(gateway, n, cfg.maximumFormatRetries);
            UnstorableReply(gateway, n, completions);
            return Err(Unanswered);
          }
          FailureExchangeFits(cfg, store.tables, artifacts.files, past, n, error);
          var _ :- CommitRound(FailureExchangeFile(n, error));
          Written(artifacts.files, old(artifacts.files), FailureExchangeFile(n, error));
          var _ :- MaterializeFailure(n, error);
        case _ =>
          UnansweredRequest(gateway, n);
          return Err(Unanswered);
      }
      return Ok(());
    }

    // ---------- the candidate and its evaluation ----------

    method CommitCandidate(n: nat) returns (r: Result<(), Stop>)
      requires Working(n) && n in store.tables.rounds && RoundRank(store.tables.rounds[n].state) >= 3
      modifies store, artifacts
      ensures Working(n) && store.tables.task == old(store.tables.task) && store.tables.rounds == old(store.tables.rounds)
      ensures r.Ok? ==> V(n).registered.Some? && FilesOf(artifacts.files, n).candidate.Some?
      ensures r.Err? ==> r.error.Crashed?
      ensures FilesOf(artifacts.files, n).evaluation == old(FilesOf(artifacts.files, n).evaluation)
      ensures n <= |past| ==> artifacts.files == old(artifacts.files)
      ensures Path(n) == old(Path(n))
    {
      hide Inv, RoundInv, Validate, Fits, ConflictsWith, WithArtifact, View, RoundPath;
      CandidateFits(cfg, store.tables, artifacts.files, past, n);
      var f := FilesOf(artifacts.files, n);
      if f.response.None? {
        return Err(Refused(MissingArtifact));
      }
      var verdict := ValidateModelResponse(Obj(f.response.value), Some(n), true);
      if verdict.Err? {
        return Err(Refused(UnreadableResponse));
      }
      var code := verdict.value.code;
      var _ :- CommitRound(CandidateFile(n, code));
      Written(artifacts.files, old(artifacts.files), CandidateFile(n, code));
      RegisterStep(cfg, store.tables, artifacts.files, past, n);
      PathAfterSideWrite(store.tables, Registering(CandidateId(n, code), CandidateRow(n, code, f.response.value)), n);
      var _ :- Persist(Registering(CandidateId(n, code), CandidateRow(n, code, f.response.value)));
      return Ok(());
    }

    /** The evaluation of the round: the committed one, the fixed one of a failed
        model response, or a new measurement against the incumbent. */
    method ObtainEvaluation(n: nat, plan: Plan, backend: Backend) returns (r: Result<(), Stop>)
      requires Working(n) && V(n).registered.Some? && plan == PlanFor(past[..n - 1])
      modifies store, artifacts
      ensures Working(n) && store.tables.task == old(store.tables.task) && store.tables.rounds == old(store.tables.rounds)
      ensures r.Ok? ==> FilesOf(artifacts.files, n).evaluation.Some? && V(n).score.Some?
      ensures r.Err? ==> r.error.Crashed? || r.error.Unanswered?
      ensures r.Err? && r.error.Unanswered? ==>
                var f := FilesOf(artifacts.files, n);
                var request := EvaluationRequest(CandidateOf(n, f), IdOf(OnlineBest(past)), false);
                && ReportOf(request, backend(request)).None?
                && f.evaluation.None? && f.modelFailure.None?
                && artifacts.files == old(artifacts.files) && store.tables == old(store.tables)
      ensures old(FilesOf(artifacts.files, n).evaluation.Some?) ==> artifacts.files == old(artifacts.files)
      ensures Path(n) == old(Path(n))
      ensures r.Ok? && old(FilesOf(artifacts.files, n).evaluation.None? && FilesOf(artifacts.files, n).modelFailure.None?) ==>
                var request := EvaluationRequest(CandidateOf(n, FilesOf(artifacts.files, n)), IdOf(OnlineBest(past)), false);
                ReportOf(request, backend(request)) == Some(FilesOf(artifacts.files, n).evaluation.value.report)
    {
      hide Inv, RoundInv, Fits, ConflictsWith, WithArtifact, View, PlanFor, FailureReport, IsCurrent, SameUpToHidden;
      hide OnlineBest, UnpairedBest, CandidateScore.IsPubliclyValid, CandidateScore.Valid, RoundPath;
      RegisteredRound(cfg, store.tables, artifacts.files, past, n);
      var f := FilesOf(artifacts.files, n);
      var id := CandidateId(n, f.candidate.value);
      var evaluation;
      if f.evaluation.Some? {
        evaluation := f.evaluation.value;
        if evaluation.plan != plan {
          return Err(Refused(PhaseDisagrees));
        }
        if f.modelFailure.Some? && evaluation.report.score.IsPubliclyValid() {
          return Err(Refused(EligibleModelFailure));
        }
      } else {
        if f.modelFailure.Some? {
          evaluation := Evaluation(FailureReport(id), plan);
          FailureIdentity(id);
        } else {
          assert past[..n - 1] == past;
          var best := BestContext(n);
          var request := EvaluationRequest(id, IdOf(best), false);
          var report := ReportOf(request, backend(request));
          if report.None? {
            return Err(Unanswered);
          }
          evaluation := Evaluation(report.value, plan);
        }
        assert past[..n - 1] == past;
        EvaluationFits(cfg, store.tables, artifacts.files, past, n, evaluation);
        var _ :- CommitRound(EvaluationFile(n, evaluation));
        Written(artifacts.files, old(artifacts.files), EvaluationFile(n, evaluation));
      }
      var score := evaluation.report.score;
      if score.candidateId != id || score.roundNumber != n {
        return Err(Refused(WrongIdentity));
      }
      ScoreIsItself(score);
      SaveScoreStep(cfg, store.tables, artifacts.files, past, n, score);
      PathAfterSideWrite(store.tables, StateStore.Write.Scoring(score), n);
      var _ :- Persist(StateStore.Write.Scoring(score));
      return Ok(());
    }

    // ---------- committed feedback and BEST ----------

    /** The incumbent of the last committed feedback, and that feedback's round. */
    method CommittedOnlineBest() returns (r: Result<(Option<CandidateScore>, int), Stop>)
      requires Holds()
      ensures r.Ok? ==>
                var committed := Committed(past, artifacts.files);
                r.value == (RowOf(store.tables, OnlineBest(committed)), |committed|)
      ensures r.Err? ==> r.error.Crashed?
    {
      hide Inv, OnlineBest, Committed, IsListing, View;
      ghost var t, files, committed := store.tables, artifacts.files, Committed(past, artifacts.files);
      var scores := store.ListCandidateScores();
      ghost var ids :| IsListing(t.scores, scores, ids);
      ListingIsByRound(cfg, t, files, past, scores, ids);
      var best: Option<CandidateScore>, last := None, 0;
      var i := 0;
      OnlineBestOfNone();
      while i < |scores|
        invariant 0 <= i <= |scores|
        invariant 0 <= last <= |committed| && last == (if i <= |committed| then i else |committed|)
        invariant best == RowOf(t, OnlineBest(committed[..last]))
      {
        ScoredRoundsCommit(cfg, t, files, past, i);
        var score := scores[i];
        var feedback := FilesOf(artifacts.files, score.roundNumber).feedback;
        if feedback.Some? {
          last := if score.roundNumber > last then score.roundNumber else last;
          if feedback.value.bestAfter.Some? {
            var id := feedback.value.bestAfter.value;
            if id !in store.tables.scores {
              return Err(Refused(InvalidOnlineBest));
            }
            var selected := store.tables.scores[id];
            if !selected.IsPubliclyValid() || selected.roundNumber > score.roundNumber {
              return Err(Refused(InvalidOnlineBest));
            }
            best := Some(selected);
          } else if feedback.value.comparison.decision.Selects() {
            if !score.IsPubliclyValid() {
              return Err(Refused(InvalidOnlineBest));
            }
            best := Some(score);
          }
        }
        i := i + 1;
      }
      if scores == [] {
        NothingScored(cfg, t, files, past);
      } else {
        ScoredRoundsCommit(cfg, t, files, past, |scores| - 1);
      }
      assert committed[..last] == committed;
      return Ok((best, last));
    }

    /** The write a reconciliation makes, if it makes one. */
    method SelectIfNeeded(needed: Option<CandidateId>) returns (r: Result<(), Stop>)
      modifies store
      ensures needed.None? ==> store.tables == old(store.tables)
      ensures needed.Some? && r.Ok? ==>
                store.tables == Apply(old(store.tables), Selecting(needed.value, "RECONCILE_COMMITTED_FEEDBACK"))
      ensures r.Err? ==> store.tables == old(store.tables) && (r.error.Crashed? || needed.Some?)
    {
      if needed.None? {
        return Ok(());
      }
      r := Persist(Selecting(needed.value, "RECONCILE_COMMITTED_FEEDBACK"));
    }

    /** Makes the selected BEST agree with the committed feedback.  In every state the
        invariant allows it already does, so nothing is written. */
    method ReconcileCommittedOnlineBest(allowInflight: bool) returns (r: Result<Option<CandidateScore>, Stop>)
      requires Holds()
      requires !allowInflight ==>
                 FilesOf(artifacts.files, |past| + 1).feedback.None? && !IsCurrent(store.tables, past, |past| + 1)
      modifies store
      ensures Holds() && store.tables == old(store.tables)
      ensures r.Err? ==> r.error.Crashed?
      ensures r.Ok? && !allowInflight ==> r.value == RowOf(store.tables, OnlineBest(past))
    {
      hide Inv, OnlineBest;
      var expected :- CommittedOnlineBest();
      BestFollowsFeedback(cfg, store.tables, artifacts.files, past);
      CommittedBest(cfg, store.tables, artifacts.files, past, |Committed(past, artifacts.files)|);
      assert Committed(past, artifacts.files)[..|Committed(past, artifacts.files)|] == Committed(past, artifacts.files);
      var reference := store.tables.task.value.best;
      var current := if reference.Some? then Lookup(store.tables.scores, reference.value) else None;
      var inflight := allowInflight && current.Some? && current.value.roundNumber > expected.1;
      var needed := if expected.0.None? || reference == IdOf(expected.0) || inflight then None else IdOf(expected.0);
      var _ :- SelectIfNeeded(needed);
      return Ok(if reference != IdOf(expected.0) && expected.0.Some? && inflight then current else expected.0);
    }

    // ---------- feedback ----------

    /** The feedback of a round, written after BEST is selected.  When it is already
        committed, only BEST is reconciled. */
    method EnsureFeedback(n: nat) returns (r: Result<(), Stop>)
      requires Working(n) && n in store.tables.rounds
      requires FilesOf(artifacts.files, n).evaluation.Some? && V(n).score.Some?
      requires FilesOf(artifacts.files, n).feedback.None? ==>
                 store.tables.rounds[n].state
                 == StagesRecorded(FilesOf(artifacts.files, n).evaluation.value.report.outcome)
      modifies store, artifacts
      ensures Working(n) && store.tables.rounds == old(store.tables.rounds)
      ensures store.tables.task.value.state == old(store.tables.task.value.state)
      ensures r.Ok? ==> FilesOf(artifacts.files, n).feedback.Some?
      ensures r.Err? ==> r.error.Crashed?
      ensures old(FilesOf(artifacts.files, n).feedback.Some?) ==> artifacts.files == old(artifacts.files)
      ensures FilesOf(artifacts.files, n).evaluation == old(FilesOf(artifacts.files, n).evaluation)
      ensures store.tables.task.value.currentRound == old(store.tables.task.value.currentRound)
      ensures Path(n) == old(Path(n))
    {
      hide Inv, Fits, ConflictsWith, WithArtifact, View, FeedbackOk, DirectFeedback, RecoveredFeedback, RoundPath;
      hide OnlineBest, UnpairedBest, OnlineComparison, NextBest, StagesRecorded, AlreadyCommitted;
      OpenRounds(cfg, store.tables, artifacts.files, past, n);
      var f := FilesOf(artifacts.files, n);
      if f.feedback.Some? {
        var _ :- ReconcileCommittedOnlineBest(true);
        return Ok(());
      }
      FeedbackContext(cfg, store.tables, artifacts.files, past, n);
      var report := f.evaluation.value.report;
      var best := BestContext(n);
      var incumbent := if best.Some? then Lookup(store.tables.scores, best.value.candidateId) else None;
      var comparison := OnlineComparison(report, incumbent);
      ghost var before := store.tables;
      if comparison.decision.Selects() {
        var reason := if comparison.decision.InitialBest? then "INITIAL_BEST" else "NEW_BEST";
        SelectStep(cfg, before, artifacts.files, past, n, reason);
        PathAfterSideWrite(before, Selecting(report.score.candidateId, reason), n);
        var _ :- Persist(Selecting(report.score.candidateId, reason));
      }
      var reference := store.tables.task.value.best;
      var bestAfter := if reference.Some? && reference.value in store.tables.scores then reference else None;
      var feedback := Feedback(comparison, IdOf(best), bestAfter);
      FeedbackFits(cfg, before, store.tables, artifacts.files, past, n, feedback);
      var _ :- CommitRound(FeedbackFile(n, feedback));
      Written(artifacts.files, old(artifacts.files), FeedbackFile(n, feedback));
      return Ok(());
    }

    // ---------- driving a round to its end ----------

    /** Enters the states of the stages that ran, one transition each. */
    method RecordStages(n: nat) returns (r: Result<(), Stop>)
      requires Current(n) && FilesOf(artifacts.files, n).evaluation.Some? && V(n).score.Some?
      requires 3 <= RoundRank(store.tables.rounds[n].state)
                 <= RoundRank(LastStage(FilesOf(artifacts.files, n).evaluation.value.report.outcome))
      modifies store
      ensures Current(n) && store.tables.task == old(store.tables.task) && V(n).score.Some?
      ensures r.Ok? ==> store.tables.rounds[n].state
                        == StagesRecorded(FilesOf(artifacts.files, n).evaluation.value.report.outcome)
      ensures r.Err? ==> r.error.Crashed?
      ensures var rest := StagesToGo(old(store.tables.rounds[n].state),
                                     FilesOf(artifacts.files, n).evaluation.value.report.outcome);
              Along(old(Path(n)), Path(n), rest) && (r.Ok? ==> Path(n) == old(Path(n)) + rest)
    {
      hide Inv, StrictStateMachine.CanTransition, ReadyFor, LastStage, RoundPath, StagesToGo, StagesBetween, Along;
      ghost var start, from := Path(n), store.tables.rounds[n].state;
      ghost var first := RoundRank(from);
      var outcome := FilesOf(artifacts.files, n).evaluation.value.report.outcome;
      var last := LastStage(outcome);
      StageRanks(outcome);
      NoStages(first);
      while RoundRank(store.tables.rounds[n].state) < RoundRank(last)
        invariant Current(n) && 3 <= RoundRank(store.tables.rounds[n].state) <= RoundRank(last)
        invariant store.tables.task == old(store.tables.task) && V(n).score.Some?
        invariant first <= RoundRank(store.tables.rounds[n].state)
        invariant Path(n) == start + StagesBetween(first, RoundRank(store.tables.rounds[n].state))
        decreases RoundRank(last) - RoundRank(store.tables.rounds[n].state)
      {
        var next := STAGES[RoundRank(store.tables.rounds[n].state) - 3];
        StageEdge(store.tables.rounds[n].state);
        AmongStages(start, from, outcome, RoundRank(store.tables.rounds[n].state));
        StageReady(outcome, next, artifacts.files, n, V(n).score.Some?);
        var _ :- MoveRound(n, next);
      }
      SameRank(store.tables.rounds[n].state, last);
      AmongStages(start, from, outcome, RoundRank(last));
      if last == BenchmarkFinished {
        StageEdge(BenchmarkFinished);
        StageReady(outcome, ProfileFinished, artifacts.files, n, V(n).score.Some?);
        var _ :- MoveRound(n, ProfileFinished);
      }
      return Ok(());
    }

    /** The last transition of a round; from then on it belongs to the past. */
    method FinishRound(n: nat) returns (r: Result<(), Stop>)
      requires Current(n) && store.tables.rounds[n].state == FeedbackCommitted
      modifies store, `past
      ensures Holds() && store.tables.task == old(store.tables.task)
      ensures r.Ok? ==> |past| == n && old(past) <= past
      ensures r.Err? ==> r.error.Crashed? && past == old(past) && store.tables == old(store.tables)
      ensures r.Ok? ==> Path(n) == old(Path(n)) + [RoundFinished]
    {
      hide Inv, RoundPath;
      PathAfterMove(store.tables, n, RoundFinished, Some(store.tables.rounds[n].version));
      FinishStep(cfg, store.tables, artifacts.files, past, n);
      ghost var record := RecordOf(FilesOf(artifacts.files, n));
      var _ :- Persist(MovingRound(n, RoundFinished, Some(store.tables.rounds[n].version)));
      past := past + [record];
      return Ok(());
    }

    /** Records the stages and commits the feedback. */
    method ReachFeedback(n: nat) returns (r: Result<(), Stop>)
      requires Current(n) && FilesOf(artifacts.files, n).evaluation.Some? && V(n).score.Some?
      requires 3 <= RoundRank(store.tables.rounds[n].state)
                 <= RoundRank(LastStage(FilesOf(artifacts.files, n).evaluation.value.report.outcome))
      requires FilesOf(artifacts.files, n).feedback.Some? ==>
                 RoundRank(store.tables.rounds[n].state)
                 >= RoundRank(StagesRecorded(FilesOf(artifacts.files, n).evaluation.value.report.outcome))
      modifies store, artifacts
      ensures Working(n) && store.tables.task.value.state == old(store.tables.task.value.state)
      ensures store.tables.task.value.currentRound == old(store.tables.task.value.currentRound)
      ensures FilesOf(artifacts.files, n).evaluation == old(FilesOf(artifacts.files, n).evaluation)
      ensures r.Ok? ==> Current(n) && store.tables.rounds[n].state == FeedbackCommitted
      ensures r.Err? ==> r.error.Crashed?
      ensures var state, outcome := old(store.tables.rounds[n].state),
                                    old(FilesOf(artifacts.files, n).evaluation.value.report.outcome);
              && Remaining(state, outcome).Some? && Along(old(Path(n)), Path(n), Remaining(state, outcome).value)
              && (r.Ok? ==> Path(n) + [RoundFinished] == old(Path(n)) + Remaining(state, outcome).value)
              && Along(old(Path(n)), old(Path(n)) + Remaining(state, outcome).value, Remaining(state, outcome).value)
    {
      hide Inv, FeedbackOk, StrictStateMachine.CanTransition, View, ReadyFor, LastStage, Searching, RoundPath;
      hide Remaining, StagesToGo, Along, StagesRecorded;
      CurrentRound(cfg, store.tables, artifacts.files, past, n);
      var outcome := FilesOf(artifacts.files, n).evaluation.value.report.outcome;
      ghost var start, state := Path(n), store.tables.rounds[n].state;
      var recorded := RecordStages(n);
      AlongRemaining(start, Path(n), state, outcome);
      AlongAll(start, Remaining(state, outcome).value);
      var _ :- recorded;
      OpenRounds(cfg, store.tables, artifacts.files, past, n);
      var _ :- EnsureFeedback(n);
      OpenRounds(cfg, store.tables, artifacts.files, past, n);
      FeedbackEdge(outcome, artifacts.files, n, V(n).score.Some?);
      var _ :- MoveRound(n, FeedbackCommitted);
      WhenMoved(store.tables, artifacts.files, n, FeedbackCommitted);
      return Ok(());
    }

    /** Records the stages of a committed evaluation, commits its feedback, and
        finishes the round.  The one state it refuses is a profile recorded for an
        evaluation whose benchmark failed. */
    method AdvanceRoundEvaluation(n: nat) returns (r: Result<(), Stop>)
      requires Working(n) && n in store.tables.rounds && RoundRank(store.tables.rounds[n].state) >= 3
      requires FilesOf(artifacts.files, n).evaluation.Some? && V(n).score.Some?
      modifies store, artifacts, `past
      ensures Holds() && store.tables.task.Some?
      ensures store.tables.task.value.state == old(store.tables.task.value.state)
      ensures r.Ok? ==> old(past) <= past && |past| == if n <= |old(past)| then |old(past)| else n
      ensures r.Err? ==> past == old(past)
      ensures r.Err? ==> r.error.Crashed? || (r.error == Refused(StateAhead(n)) && Stuck(V(n)) && n == |past| + 1)
      ensures old(Stuck(V(n))) ==>
                r == Err(Refused(StateAhead(n))) && store.tables == old(store.tables)
                && artifacts.files == old(artifacts.files)
      ensures n <= |old(past)| ==>
                store.tables.rounds == old(store.tables.rounds) && artifacts.files == old(artifacts.files)
      ensures FilesOf(artifacts.files, n).evaluation == old(FilesOf(artifacts.files, n).evaluation)
      ensures store.tables.task.value.currentRound == old(store.tables.task.value.currentRound)
      ensures var rest := Remaining(old(store.tables.rounds[n].state),
                                    old(FilesOf(artifacts.files, n).evaluation.value.report.outcome));
              && (rest.None? <==> r.Err? && r.error.Refused?)
              && (rest.None? ==> store.tables == old(store.tables))
              && (rest.Some? ==> Along(old(Path(n)), Path(n), rest.value))
              && (r.Ok? ==> rest.Some? && Path(n) == old(Path(n)) + rest.value)
    {
      hide Inv, FeedbackOk, StrictStateMachine.CanTransition, View, ReadyFor, LastStage, Stuck, Searching, RoundPath;
      hide Remaining, StagesToGo, Along, StagesRecorded;
      OpenRounds(cfg, store.tables, artifacts.files, past, n);
      var outcome := FilesOf(artifacts.files, n).evaluation.value.report.outcome;
      var last := LastStage(outcome);
      AdvanceFacts(cfg, store.tables, artifacts.files, past, n);
      WhenStuck(store.tables, artifacts.files, n);
      var state := store.tables.rounds[n].state;
      ghost var start := Path(n);
      if state != FeedbackCommitted && state != RoundFinished {
        RemainingRefused(state, outcome);
        if RoundRank(state) > RoundRank(last) {
          return Err(Refused(StateAhead(n)));
        }
        var _ :- ReachFeedback(n);
        OpenRounds(cfg, store.tables, artifacts.files, past, n);
      } else {
        RemainingAtEnd(start, state, outcome);
        var _ :- EnsureFeedback(n);
        OpenRounds(cfg, store.tables, artifacts.files, past, n);
      }
      if store.tables.rounds[n].state == FeedbackCommitted {
        var _ :- FinishRound(n);
      }
      return Ok(());
    }

    // ---------- one round ----------

    /** What happened to the round of a run that started from `row`. */
    ghost predicate RunsAlong(n: nat, start: seq<RoundState>, row: Option<RoundRow>)
      reads store, artifacts
    {
      Along(start, Path(n), RestOfRound(row, FilesOf(artifacts.files, n).evaluation))
    }

    /** Takes a round up to its evaluation, from any point. */
    method ReachEvaluation(n: nat, plan: Plan, provider: Provider, backend: Backend) returns (r: Result<(), Stop>)
      requires Holds() && !Terminal(store.tables) && !store.tables.task.value.state.TaskCreated?
      requires 1 <= n <= cfg.rounds && n <= |past| + 1 && plan == PlanFor(past[..n - 1])
      requires n == |past| + 1 ==> Searching(store.tables) && NoRetry(past)
      modifies store, artifacts
      ensures Holds() && store.tables.task.Some?
      ensures store.tables.task.value.state == old(store.tables.task.value.state)
      ensures r.Ok? ==> Working(n) && n in store.tables.rounds && RoundRank(store.tables.rounds[n].state) >= 3
      ensures r.Ok? ==> FilesOf(artifacts.files, n).evaluation.Some? && V(n).score.Some?
      ensures r.Ok? ==>
                var row := old(Lookup(store.tables.rounds, n));
                store.tables.rounds[n].state
                == if row.Some? && RoundRank(row.value.state) >= 3 then row.value.state else ModelResponseCommitted
      ensures r.Err? ==> r.error.Crashed? || r.error.Unanswered?
      ensures old(FilesOf(artifacts.files, n).evaluation.Some?) ==>
                && FilesOf(artifacts.files, n).evaluation == old(FilesOf(artifacts.files, n).evaluation)
                && store.tables.task == old(store.tables.task)
                && store.tables.rounds == old(store.tables.rounds)
                && (r.Err? ==> r.error.Crashed?)
      ensures n <= |past| ==>
                store.tables.rounds == old(store.tables.rounds) && artifacts.files == old(artifacts.files)
      ensures old(Path(n)) <= Path(n) && Opening(n) == old(Opening(n))
    {
      hide Inv, StrictStateMachine.CanTransition, View, IsCurrent, PlanFor, NoRetry, RoundPath, OpeningToGo;
      FinishedRank(cfg, store.tables, artifacts.files, past, n);
      if FilesOf(artifacts.files, n).evaluation.Some? {
        EvaluatedHasResponse(cfg, store.tables, artifacts.files, past, n);
      }
      var _ :- OpenRound(n, plan);
      if store.tables.rounds[n].state.ModelRequestSent? {
        OpenRounds(cfg, store.tables, artifacts.files, past, n);
        var _ :- ObtainResponse(n, provider);
        OpenRounds(cfg, store.tables, artifacts.files, past, n);
      }
      OnlyRequestHasRankTwo(store.tables.rounds[n].state);
      var _ :- CommitCandidate(n);
      r := ObtainEvaluation(n, plan, backend);
    }

    /** Runs a round, or what is left of it: it enters exactly the states that are
        left on its path.  A finished round is gone through again and stays as it
        is. */
    method RunRound(n: nat, plan: Plan, provider: Provider, backend: Backend) returns (r: Result<(), Stop>)
      requires Holds() && !Terminal(store.tables) && !store.tables.task.value.state.TaskCreated?
      requires 1 <= n <= cfg.rounds && n <= |past| + 1 && plan == PlanFor(past[..n - 1])
      requires n == |past| + 1 ==> Searching(store.tables) && NoRetry(past)
      modifies store, artifacts, `past
      ensures Holds() && store.tables.task.Some?
      ensures store.tables.task.value.state == old(store.tables.task.value.state)
      ensures r.Ok? ==> old(past) <= past && |past| == if n <= |old(past)| then |old(past)| else n
      ensures r.Err? ==> past == old(past)
      ensures r.Err? ==> r.error.Crashed? || r.error.Unanswered?
                         || (r.error == Refused(StateAhead(n)) && Stuck(V(n)) && n == |past| + 1)
      ensures old(Stuck(V(n))) ==> r.Err? && Stuck(V(n))
      ensures n <= |old(past)| ==>
                store.tables.rounds == old(store.tables.rounds) && artifacts.files == old(artifacts.files)
      ensures old(FilesOf(artifacts.files, n).evaluation.Some?) ==>
                && FilesOf(artifacts.files, n).evaluation == old(FilesOf(artifacts.files, n).evaluation)
                && store.tables.task.value.currentRound == old(store.tables.task.value.currentRound)
                && (r.Err? ==> !r.error.Unanswered?)
      ensures RunsAlong(n, old(Path(n)), old(Lookup(store.tables.rounds, n)))
      ensures r.Ok? ==>
                Path(n) == old(Path(n)) + RestOfRound(old(Lookup(store.tables.rounds, n)),
                                                      FilesOf(artifacts.files, n).evaluation)
    {
      hide Inv, StrictStateMachine.CanTransition, View, IsCurrent, PlanFor, NoRetry, LastStage, RoundPath;
      hide OpeningToGo, Along, RestOfRound, Remaining;
      ghost var start, row := Path(n), Lookup(store.tables.rounds, n);
      FinishedRank(cfg, store.tables, artifacts.files, past, n);
      WhenStuckHere(store.tables, artifacts.files, n);
      var prepared := ReachEvaluation(n, plan, provider, backend);
      WhenStuckHere(store.tables, artifacts.files, n);
      AlongOpening(start, Path(n), row, Lookup(store.tables.rounds, n), FilesOf(artifacts.files, n).evaluation);
      var _ :- prepared;
      ghost var path, state := Path(n), store.tables.rounds[n].state;
      ghost var evaluation := FilesOf(artifacts.files, n).evaluation.value;
      OpenedRow(store.tables.rounds[n]);
      r := AdvanceRoundEvaluation(n);
      AlongRest(start, path, Path(n), row, state, evaluation);
    }

    // ---------- the final gates ----------

    /** All rounds are finished and evaluated; the task is not yet over. */
    ghost predicate Finishing()
      reads this, store, artifacts
    {
      && Holds() && store.tables.task.Some? && !Terminal(store.tables)
      && !store.tables.task.value.state.TaskCreated?
      && Complete(cfg, past) && store.tables.task.value.currentRound == |past|
    }

    ghost predicate FinalInvAs(state: TaskState, files: TaskFiles)
      reads this, store, artifacts
      requires store.tables.task.Some?
    {
      FinalInv(cfg, past, store.tables.task.value.(state := state), files, V(BestRound(past)))
    }

    method MoveTask(target: TaskState) returns (r: Result<(), Stop>)
      requires Finishing() && TASK_MACHINE.CanTransition(store.tables.task.value.state, target)
      requires !target.RoundsRunning? && FinalInvAs(target, artifacts.files.task)
      modifies store
      ensures Holds() && store.tables.task.Some? && store.tables.scores == old(store.tables.scores)
      ensures r.Ok? ==> store.tables.task.value
                        == old(store.tables.task.value).(state := target, version := old(store.tables.task.value.version) + 1)
      ensures r.Err? ==> r.error.Crashed? && store.tables == old(store.tables)
      ensures V(BestRound(past)) == old(V(BestRound(past)))
    {
      hide Inv, FinalInv, StrictStateMachine.CanTransition, View;
      TaskMoveStep(cfg, store.tables, artifacts.files, past, target);
      r := Persist(MovingTask(target, None));
    }

    method CommitTask(a: Artifact) returns (r: Result<(), Stop>)
      requires Finishing() && !IsRoundArtifact(a) && !ConflictsWith(artifacts.files, a)
      requires FinalInvAs(store.tables.task.value.state, WithArtifact(artifacts.files, a).task)
      modifies artifacts
      ensures Finishing()
      ensures r.Ok? ==> artifacts.files == WithArtifact(old(artifacts.files), a)
      ensures r.Err? ==> r.error.Crashed? && artifacts.files == old(artifacts.files)
      ensures V(BestRound(past)) == old(V(BestRound(past)))
    {
      hide Inv, FinalInv, ConflictsWith, WithArtifact, View, BestRound;
      TaskArtifactStep(cfg, store.tables, artifacts.files, past, a);
      r := Commit(a);
    }

    /** Repair and optimization rounds among the committed evaluations. */
    method TrajectoryCounts() returns (repair: nat, optimization: nat)
      requires Finishing()
      ensures repair == Count(PlansOf(past), Repair) && optimization == Count(PlansOf(past), Optimization)
    {
      hide Inv, Count;
      repair, optimization := 0, 0;
      CountNone();
      var n := 1;
      while n <= store.tables.task.value.currentRound
        invariant 1 <= n <= |past| + 1
        invariant repair == Count(PlansOf(past)[..n - 1], Repair)
        invariant optimization == Count(PlansOf(past)[..n - 1], Optimization)
      {
        RecordRead(cfg, store.tables, artifacts.files, past, n);
        CountNext(PlansOf(past), n - 1);
        var evaluation := FilesOf(artifacts.files, n).evaluation;
        if evaluation.Some? {
          if evaluation.value.plan.phase.Repair? {
            repair := repair + 1;
          } else if evaluation.value.plan.phase.Optimization? {
            optimization := optimization + 1;
          }
        }
        n := n + 1;
      }
      assert PlansOf(past)[..n - 1] == PlansOf(past);
    }

    /** No candidate was ever eligible: the task fails with that result. */
    method ConcludeWithoutCandidate() returns (r: Result<FinalResult, Stop>)
      requires Finishing() && Searching(store.tables) && OnlineBest(past).None?
      modifies store, artifacts
      ensures Holds()
      ensures r.Ok? ==> Terminal(store.tables) && artifacts.files.task.finalResult == Some(r.value)
      ensures r.Err? ==> r.error.Crashed?
    {
      hide Inv, OnlineBest, View;
      FinalFacts(cfg, store.tables, artifacts.files, past);
      var repair, optimization := TrajectoryCounts();
      var final := FinalResult(FailedNoValidCandidate, None, None, None, repair, optimization);
      var _ :- CommitTask(FinalResultFile(final));
      TaskEdges();
      var _ :- MoveTask(TaskFailed);
      return Ok(final);
    }

    /** The final transitions a gate status calls for, from wherever they stopped. */
    method Conclude(final: FinalResult) returns (r: Result<FinalResult, Stop>)
      requires Finishing() && Gated(cfg, past, artifacts.files.task)
      requires store.tables.task.value.state in {HiddenCorrectnessTest, FinalBenchmark, FinalFullProfile}
      requires artifacts.files.task.finalResult == Some(final) && HiddenFlagStored(artifacts.files.task, V(BestRound(past)))
      modifies store
      ensures Holds()
      ensures r.Ok? ==> r.value == final && Terminal(store.tables)
      ensures r.Err? ==> r.error.Crashed?
    {
      hide Inv, OnlineBest, View, Gated, GatedResult, HiddenFlagStored, BestRound, NoRetry;
      FinalFacts(cfg, store.tables, artifacts.files, past);
      GatedHasBest(cfg, past, artifacts.files.task);
      TaskEdges();
      if final.status.FailedHiddenCorrectness? {
        if store.tables.task.value.state == HiddenCorrectnessTest {
          var _ :- MoveTask(TaskFailed);
        }
        return Ok(final);
      }
      if store.tables.task.value.state == HiddenCorrectnessTest {
        var _ :- MoveTask(FinalBenchmark);
      }
      if final.status.FailedFinalBenchmark? {
        if store.tables.task.value.state == FinalBenchmark {
          var _ :- MoveTask(TaskFailed);
        }
        return Ok(final);
      }
      if store.tables.task.value.state == FinalBenchmark && cfg.runForFinalBest {
        var _ :- MoveTask(FinalFullProfile);
      }
      var terminal := if final.status.IsPassed() then TaskFinished else TaskFailed;
      if store.tables.task.value.state in {FinalBenchmark, FinalFullProfile} {
        var _ :- MoveTask(terminal);
      }
      return Ok(final);
    }

    /** The hidden evaluation of the selected candidate, its flag in the score
        table, and the final result; then the transitions that result calls for. */
    method GateCandidate(best: CandidateScore, backend: Backend) returns (r: Result<FinalResult, Stop>)
      requires Finishing() && Some(best) == RowOf(store.tables, OnlineBest(past)) && OnlineBest(past).Some?
      requires store.tables.task.value.state in {HiddenCorrectnessTest, FinalBenchmark, FinalFullProfile}
      modifies store, artifacts
      ensures Holds()
      ensures r.Ok? ==> Terminal(store.tables) && artifacts.files.task.finalResult == Some(r.value)
      ensures r.Ok? && old(artifacts.files.task.finalEvaluation.None?) ==>
                var request := EvaluationRequest(best.candidateId, None, true);
                artifacts.files.task.finalEvaluation == ReportOf(request, backend(request))
      ensures r.Err? ==> r.error.Crashed? || r.error.Unanswered?
    {
      hide Inv, OnlineBest, View, NoRetry, GateOf, CandidateScore.Valid, Count;
      SelectedCandidate(cfg, store.tables, artifacts.files, past);
      FinalFacts(cfg, store.tables, artifacts.files, past);
      if artifacts.files.task.finalEvaluation.None? {
        var request := EvaluationRequest(best.candidateId, None, true);
        var measured := ReportOf(request, backend(request));
        if measured.None? {
          return Err(Unanswered);
        }
        var _ :- CommitTask(FinalEvaluationFile(measured.value));
        FinalFacts(cfg, store.tables, artifacts.files, past);
      }
      var report := artifacts.files.task.finalEvaluation.value;
      if report.score.candidateId != best.candidateId {
        return Err(Refused(WrongIdentity));
      }
      var (status, hiddenPassed) := GateOf(cfg, report);
      var _ :- FlagHidden(best, hiddenPassed);
      FinalFacts(cfg, store.tables, artifacts.files, past);
      var repair, optimization := TrajectoryCounts();
      var final := FinalResult(status, Some(best.candidateId), Some(hiddenPassed), Some(report), repair, optimization);
      FinalIsGated(cfg, past, report, final);
      var _ :- CommitTask(FinalResultFile(final));
      r := Conclude(final);
    }

    /** Stores the outcome of the hidden test with the selected candidate's score. */
    method FlagHidden(best: CandidateScore, hiddenPassed: bool) returns (r: Result<(), Stop>)
      requires Finishing() && !Searching(store.tables)
      requires OnlineBest(past).Some? && Some(best) == RowOf(store.tables, OnlineBest(past))
      modifies store
      ensures Finishing() && store.tables.task == old(store.tables.task)
      ensures r.Ok? ==> V(BestRound(past)).score == Some(best.(hiddenCorrectnessPassed := Some(hiddenPassed)))
      ensures r.Err? ==> r.error.Crashed?
    {
      hide Inv, OnlineBest, View, NoRetry;
      SelectedCandidate(cfg, store.tables, artifacts.files, past);
      var score := best.(hiddenCorrectnessPassed := Some(hiddenPassed));
      FlaggedScore(best, score, OnlineBest(past).value);
      SaveScoreStep(cfg, store.tables, artifacts.files, past, BestRound(past), score);
      ScoredViewOnly(View(store.tables, artifacts.files, BestRound(past)), score);
      var _ :- Persist(StateStore.Write.Scoring(score));
      return Ok(());
    }

    /** The final selection and gates, from whatever point they got to. */
    method RunFinal(backend: Backend) returns (r: Result<FinalResult, Stop>)
      requires Holds() && store.tables.task.Some? && (Terminal(store.tables) || Finishing())
      modifies store, artifacts
      ensures Holds()
      ensures r.Ok? ==> Terminal(store.tables) && artifacts.files.task.finalResult == Some(r.value)
      ensures r.Err? ==> r.error.Crashed? || r.error.Unanswered?
                         || (r.error == Refused(HiddenSeedMissing) && !cfg.hiddenSeedSet && OnlineBest(past).Some?)
    {
      hide Inv, OnlineBest, View, NoRetry, IsCurrent;
      FinalFacts(cfg, store.tables, artifacts.files, past);
      if store.tables.task.value.state in TASK_MACHINE.terminal {
        var final := artifacts.files.task.finalResult;
        if final.None? {
          return Err(Refused(MissingArtifact));
        }
        var expected := if final.value.status.IsPassed() then TaskFinished else TaskFailed;
        if store.tables.task.value.state != expected {
          return Err(Refused(TerminalDisagrees));
        }
        return Ok(final.value);
      }
      SelectedCandidate(cfg, store.tables, artifacts.files, past);
      var best: Option<CandidateScore>;
      if store.tables.task.value.state.RoundsRunning? {
        best :- ReconcileCommittedOnlineBest(false);
      } else {
        var reference := store.tables.task.value.best;
        if reference.None? {
          return Err(Refused(NoSelectedCandidate));
        }
        best := Lookup(store.tables.scores, reference.value);
      }
      if best.None? {
        r := ConcludeWithoutCandidate();
        return;
      }
      var _ :- FreezeCandidate(best.value);
      r := GateCandidate(best.value, backend);
    }

    /** Leaves the search, freezes the selected source, and opens the hidden test. */
    method FreezeCandidate(best: CandidateScore) returns (r: Result<(), Stop>)
      requires Finishing() && Some(best) == RowOf(store.tables, OnlineBest(past)) && OnlineBest(past).Some?
      modifies store, artifacts
      ensures Holds() && store.tables.task.Some?
      ensures r.Ok? ==> Finishing() && Some(best) == RowOf(store.tables, OnlineBest(past))
      ensures r.Ok? ==> store.tables.task.value.state in {HiddenCorrectnessTest, FinalBenchmark, FinalFullProfile}
      ensures r.Err? ==> r.error.Crashed? || (r.error == Refused(HiddenSeedMissing) && !cfg.hiddenSeedSet)
    {
      hide Inv, OnlineBest, View, NoRetry;
      FinalFacts(cfg, store.tables, artifacts.files, past);
      SelectedCandidate(cfg, store.tables, artifacts.files, past);
      TaskEdges();
      if store.tables.task.value.state.RoundsRunning? {
        var _ :- MoveTask(SelectBestCandidate);
        FinalFacts(cfg, store.tables, artifacts.files, past);
      }
      var source := FilesOf(artifacts.files, best.roundNumber).candidate;
      if source.None? {
        return Err(Refused(MissingArtifact));
      }
      var _ :- CommitTask(BestCandidateFile(source.value));
      FinalFacts(cfg, store.tables, artifacts.files, past);
      if !cfg.hiddenSeedSet {
        return Err(Refused(HiddenSeedMissing));
      }
      if store.tables.task.value.state.SelectBestCandidate? {
        var _ :- MoveTask(HiddenCorrectnessTest);
      }
      return Ok(());
    }

    // ---------- the whole task ----------

    /** Nothing is durable yet, or the invariant holds. */
    ghost predicate Resumable()
      reads this, store, artifacts
    {
      Holds() || (NothingDurable(store.tables, artifacts.files) && past == [])
    }

    /** The only refusals of a run, each with what is durable when it happens. */
    ghost predicate Expected(reason: Refusal)
      reads this, store, artifacts
    {
      match reason
      case StateAhead(n) => n == |past| + 1 && Stuck(V(n))
      case RetryRequired(n) => n == |past| && n >= 1 && InfrastructureRetry(past[n - 1].evaluation.report.outcome)
      case HiddenSeedMissing => !cfg.hiddenSeedSet && OnlineBest(past).Some?
      case _ => false
    }

    /** No run gets past the last round. */
    ghost predicate Blocked()
      reads this, store, artifacts
    {
      Holds() && AwaitsRetry(store.tables, artifacts.files)
    }

    lemma LastRoundBlocks()
      requires Blocked()
      ensures store.tables.task.Some? && 1 <= store.tables.task.value.currentRound <= cfg.rounds
    {
      hide Inv;
      RetryBlocks(cfg, store.tables, artifacts.files, past);
    }

    /** Creates the task, or takes it up again. */
    method OpenTask() returns (r: Result<(), Stop>)
      requires Resumable()
      modifies store
      ensures Resumable()
      ensures r.Ok? ==> Holds() && store.tables.task.Some? && !store.tables.task.value.state.TaskCreated?
      ensures r.Err? ==> r.error.Crashed?
      ensures old(Holds()) ==> Holds()
      ensures old(store.tables.task.Some? && !store.tables.task.value.state.TaskCreated?) ==>
                store.tables == old(store.tables)
    {
      hide Inv, View, NothingDurable;
      if store.tables.task.None? {
        Untouched(cfg, store.tables, artifacts.files, past);
        CreateTaskStep(cfg, store.tables, artifacts.files);
      } else {
        Created(cfg, store.tables, artifacts.files, past);
        FinalFacts(cfg, store.tables, artifacts.files, past);
      }
      var _ :- Persist(CreatingTask(cfg.spec));
      FinalFacts(cfg, store.tables, artifacts.files, past);
      if store.tables.task.value.state.TaskCreated? {
        StartOfTask(cfg, store.tables, artifacts.files, past);
        TaskMoveStep(cfg, store.tables, artifacts.files, past, RoundsRunning);
        var _ :- Persist(MovingTask(RoundsRunning, None));
      }
      return Ok(());
    }

    /** Runs a round and reads its committed evaluation; one that requires an
        infrastructure retry ends the run before another round is consumed. */
    method RunAndJudge(n: nat, plan: Plan, provider: Provider, backend: Backend) returns (r: Result<Evaluation, Stop>)
      requires Holds() && store.tables.task.Some? && !Terminal(store.tables)
      requires !store.tables.task.value.state.TaskCreated?
      requires 1 <= n <= cfg.rounds && n <= |past| + 1 && plan == PlanFor(past[..n - 1]) && NoRetry(past[..n - 1])
      requires n == |past| + 1 ==> Searching(store.tables) && NoRetry(past)
      modifies store, artifacts, `past
      ensures Holds() && store.tables.task.Some?
      ensures store.tables.task.value.state == old(store.tables.task.value.state)
      ensures r.Ok? ==> n <= |past| && past[..n - 1] == old(past)[..n - 1] && NoRetry(past[..n])
      ensures r.Ok? ==> r.value == past[n - 1].evaluation
      ensures r.Err? && r.error.Refused? ==> Expected(r.error.reason)
      ensures old(Stuck(V(|past| + 1))) ==>
                past == old(past) && Stuck(V(|past| + 1)) && (r.Err? || n <= |past|)
      ensures old(Blocked()) ==>
                && Blocked() && n <= old(store.tables.task.value.currentRound) == store.tables.task.value.currentRound
                && (r.Ok? ==> n < store.tables.task.value.currentRound) && (r.Err? ==> !r.error.Unanswered?)
    {
      hide Inv, View, OnlineBest, NoRetry, PlanFor, InfrastructureRetry, Stuck, FilesOf, Searching, RestOfRound;
      if Blocked() {
        RetryBlocks(cfg, store.tables, artifacts.files, past);
        FinishedRank(cfg, store.tables, artifacts.files, past, n);
      }
      WhenStuckHere(store.tables, artifacts.files, |past| + 1);
      ghost var before := past;
      var done := RunRound(n, plan, provider, backend);
      WhenStuckHere(store.tables, artifacts.files, |past| + 1);
      var _ :- done;
      RecordRead(cfg, store.tables, artifacts.files, past, n);
      assert past[..n - 1] == before[..n - 1];
      var evaluation := FilesOf(artifacts.files, n).evaluation;
      if evaluation.None? {
        return Err(Refused(MissingArtifact));
      }
      AfterRound(cfg, store.tables, artifacts.files, past, n);
      if InfrastructureRetry(evaluation.value.report.outcome) {
        return Err(Refused(RetryRequired(n)));
      }
      return Ok(evaluation.value);
    }

    /** The rounds of a run, each with the plan its predecessors' outcomes call for. */
    method RunRounds(provider: Provider, backend: Backend) returns (r: Result<(), Stop>)
      requires Holds() && store.tables.task.Some? && !Terminal(store.tables)
      requires !store.tables.task.value.state.TaskCreated?
      modifies store, artifacts, `past
      ensures Holds() && store.tables.task.Some?
      ensures r.Ok? ==> Finishing()
      ensures r.Err? && r.error.Refused? ==> Expected(r.error.reason)
      ensures old(Stuck(V(|past| + 1))) ==> r.Err? && past == old(past) && Stuck(V(|past| + 1))
      ensures old(Blocked()) ==> Blocked() && r.Err? && !r.error.Unanswered?
    {
      hide Inv, View, OnlineBest, NoRetry, AwaitsRetry, CountersAgree, PlanAfter, ReadyFlags, SeedReady;
      hide Stuck, Successes, Complete, Searching, Expected, FilesOf, Blocked;
      var repairCount, optimizationCount, activeOptimization, repairAttempt, seedReady := 0, 0, 0, 0, false;
      var previous: Option<Evaluation> := None;
      var n := 1;
      NoRounds(past);
      StuckIsOpen(cfg, store.tables, artifacts.files, past);
      if Blocked() {
        LastRoundBlocks();
      }
      while n <= cfg.rounds
        invariant 1 <= n <= cfg.rounds + 1 && n - 1 <= |past|
        invariant Holds() && store.tables.task.Some? && !Terminal(store.tables)
        invariant !store.tables.task.value.state.TaskCreated?
        invariant NoRetry(past[..n - 1])
        invariant CountersAgree(ReadyFlags(past[..n - 1]), repairCount, optimizationCount, activeOptimization,
                                repairAttempt, seedReady)
        invariant n > 1 ==> previous == Some(past[n - 2].evaluation)
        invariant old(Stuck(V(|past| + 1))) ==> past == old(past) && Stuck(V(|past| + 1)) && |past| < cfg.rounds
        invariant old(Blocked()) ==> Blocked() && n <= store.tables.task.value.currentRound <= cfg.rounds
      {
        BeforeRound(cfg, store.tables, artifacts.files, past, n);
        BranchesComputePlan(ReadyFlags(past[..n - 1]), repairCount, optimizationCount, activeOptimization,
                            repairAttempt, seedReady);
        LastReady(past, n - 1);
        var phase, phaseIndex;
        if !seedReady {
          repairCount := repairCount + 1;
          phase, phaseIndex, repairAttempt := Repair, repairCount, 0;
        } else if previous.Some? && !SeedReady(previous.value.report.outcome) {
          repairAttempt := repairAttempt + 1;
          phase, phaseIndex := OptimizationRepair, activeOptimization;
        } else {
          optimizationCount := optimizationCount + 1;
          activeOptimization := optimizationCount;
          phase, phaseIndex, repairAttempt := Optimization, activeOptimization, 0;
        }
        var evaluation :- RunAndJudge(n, Plan(phase, phaseIndex, repairAttempt), provider, backend);
        previous := Some(evaluation);
        if SeedReady(evaluation.report.outcome) {
          seedReady := true;
        }
        CountersAdvance(past, n, repairCount, optimizationCount, activeOptimization, repairAttempt, seedReady);
        n := n + 1;
      }
      AfterAllRounds(cfg, store.tables, artifacts.files, past);
      return Ok(());
    }

    /** Runs the task to its end, whatever is durable already.  The provider and
        the backend may answer differently on every run. */
    method RunTask(provider: Provider, backend: Backend) returns (r: Result<FinalResult, Stop>)
      requires Resumable()
      modifies store, artifacts, `past
      ensures Resumable()
      ensures r.Ok? ==> Holds() && Terminal(store.tables) && artifacts.files.task.finalResult == Some(r.value)
      ensures r.Err? && r.error.Refused? ==> Holds() && Expected(r.error.reason)
      ensures old(Holds() && Stuck(V(|past| + 1))) ==>
                r.Err? && Holds() && past == old(past) && Stuck(V(|past| + 1))
      ensures old(Blocked()) ==> r.Err? && !r.error.Unanswered? && Blocked()
    {
      hide Inv, View, OnlineBest, NoRetry, NothingDurable, Stuck;
      if Holds() {
        StuckIsOpen(cfg, store.tables, artifacts.files, past);
      }
      if Blocked() {
        RetryBlocks(cfg, store.tables, artifacts.files, past);
      }
      var _ :- OpenTask();
      if store.tables.task.value.state !in TASK_MACHINE.terminal {
        var _ :- RunRounds(provider, backend);
      }
      r := RunFinal(backend);
    }

    /** A supervisor starts the run again after every crash, any number of times,
        until it ends or refuses. */
    method Supervise(providers: seq<Provider>, backends: seq<Backend>) returns (r: Result<FinalResult, Stop>)
      requires Resumable() && |providers| == |backends|
      modifies store, artifacts, `past
      ensures Resumable()
      ensures r.Ok? ==> Holds() && Terminal(store.tables) && artifacts.files.task.finalResult == Some(r.value)
      ensures r.Err? && r.error.Refused? ==> Holds() && Expected(r.error.reason)
      ensures old(Holds() && Stuck(V(|past| + 1))) ==> r.Err?
      ensures old(Blocked()) ==> r.Err? && Blocked()
    {
      hide Inv, NothingDurable, Stuck, View, AwaitsRetry;
      r := Err(Crashed);
      for i := 0 to |providers|
        invariant Resumable() && r.Err? && !r.error.Refused?
        invariant old(Holds() && Stuck(V(|past| + 1))) ==> Holds() && Stuck(V(|past| + 1))
        invariant old(Blocked()) ==> Blocked()
      {
        r := RunTask(providers[i], backends[i]);
        if r.Ok? || r.error.Refused? {
          return;
        }
      }
    }
  }
}
