/** The durable rows of one task: its lifecycle, its rounds, its candidates and
    their scores, with the event every write appends in the same transaction. */
module StateStore {
  import opened Wrappers
  import opened JsonValue
  import opened StateMachine
  import opened Scoring

  datatype TaskRow = TaskRow(
    spec: string, state: TaskState, currentRound: nat, best: Option<CandidateId>, version: nat)

  datatype RoundRow = RoundRow(state: RoundState, version: nat)

  /** Digests are injective: the row carries the digested content itself. */
  datatype CandidateRow = CandidateRow(round: int, source: string, response: map<string, Json>)

  datatype StoreEvent =
    | TaskEntered(taskState: TaskState)
    | RoundEntered(round: nat, roundState: RoundState)
    | CandidateRegistered(candidate: CandidateId)
    | ScoreCommitted(candidate: CandidateId)
    | BestSelected(candidate: CandidateId, previous: Option<CandidateId>, reason: string)

  datatype StoreError =
    | MissingRow | IllegalTransition | StaleVersion | InvalidArgument | DifferentMetadata | NotPubliclyValid
    | BrokenReference

  datatype Tables = Tables(
    task: Option<TaskRow>, rounds: map<nat, RoundRow>,
    candidates: map<CandidateId, CandidateRow>, scores: map<CandidateId, CandidateScore>,
    events: seq<StoreEvent>)

  const EMPTY_TABLES := Tables(None, map[], map[], map[], [])

  predicate VersionAgrees(expected: Option<nat>, found: nat) {
    expected.None? || expected.value == found
  }

  // ---------- the writes, each one transaction ----------

  function CreateTask(t: Tables, spec: string): Result<Tables, StoreError> {
    if t.task.Some? then
      if t.task.value.spec == spec then Ok(t) else Err(DifferentMetadata)
    else
      Ok(t.(task := Some(TaskRow(spec, TaskCreated, 0, None, 1)),
            events := t.events + [TaskEntered(TaskCreated)]))
  }

  function TransitionTask(t: Tables, target: TaskState, expected: Option<nat>): Result<Tables, StoreError> {
    if t.task.None? then Err(MissingRow)
    else
      var row := t.task.value;
      if !TASK_MACHINE.CanTransition(row.state, target) then Err(IllegalTransition)
      else if !VersionAgrees(expected, row.version) then Err(StaleVersion)
      else Ok(t.(task := Some(row.(state := target, version := row.version + 1)),
                 events := t.events + [TaskEntered(target)]))
  }

  function CreateRound(t: Tables, number: int): Result<Tables, StoreError> {
    if number < 1 then Err(InvalidArgument)
    else if number in t.rounds then Ok(t)
    else if t.task.None? then Err(MissingRow)
    else
      var row := t.task.value;
      if row.state != RoundsRunning then Err(IllegalTransition)
      else if number != row.currentRound + 1 then Err(IllegalTransition)
      else if number > 1 && (number - 1 !in t.rounds || t.rounds[number - 1].state != RoundFinished) then
        Err(IllegalTransition)
      else Ok(t.(task := Some(row.(currentRound := number, version := row.version + 1)),
                 rounds := t.rounds[number := RoundRow(RoundCreated, 1)],
                 events := t.events + [RoundEntered(number, RoundCreated)]))
  }

  function TransitionRound(t: Tables, number: nat, target: RoundState, expected: Option<nat>)
    : Result<Tables, StoreError>
  {
    if number !in t.rounds then Err(MissingRow)
    else
      var row := t.rounds[number];
      if !ROUND_MACHINE.CanTransition(row.state, target) then Err(IllegalTransition)
      else if !VersionAgrees(expected, row.version) then Err(StaleVersion)
      else Ok(t.(rounds := t.rounds[number := RoundRow(target, row.version + 1)],
                 events := t.events + [RoundEntered(number, target)]))
  }

  function RegisterCandidate(t: Tables, id: CandidateId, row: CandidateRow): Result<Tables, StoreError> {
    if id in t.candidates then
      if t.candidates[id] == row then Ok(t) else Err(DifferentMetadata)
    // The foreign key to the rounds.
    else if row.round !in t.rounds then Err(BrokenReference)
    else
      Ok(t.(candidates := t.candidates[id := row], events := t.events + [CandidateRegistered(id)]))
  }

  function SaveScore(t: Tables, score: CandidateScore): Result<Tables, StoreError> {
    var id := score.candidateId;
    if id !in t.candidates then Err(MissingRow)
    else if t.candidates[id].round != score.roundNumber then Err(InvalidArgument)
    else if id in t.scores && t.scores[id] == score then Ok(t)
    else Ok(t.(scores := t.scores[id := score], events := t.events + [ScoreCommitted(id)]))
  }

  function SetBest(t: Tables, id: CandidateId, reason: string): Result<Tables, StoreError> {
    if id !in t.scores || id !in t.candidates then Err(MissingRow)
    else if !t.scores[id].IsPubliclyValid() then Err(NotPubliclyValid)
    else if t.task.None? then Err(MissingRow)
    else
      var row := t.task.value;
      if row.best == Some(id) then Ok(t)
      else Ok(t.(task := Some(row.(best := Some(id), version := row.version + 1)),
                 events := t.events + [BestSelected(id, row.best, reason)]))
  }

  datatype Write =
    | CreatingTask(spec: string)
    | MovingTask(taskTarget: TaskState, expectedTask: Option<nat>)
    | CreatingRound(number: int)
    | MovingRound(round: nat, roundTarget: RoundState, expectedRound: Option<nat>)
    | Registering(candidate: CandidateId, row: CandidateRow)
    | Scoring(score: CandidateScore)
    | Selecting(best: CandidateId, reason: string)

  function Attempt(t: Tables, w: Write): Result<Tables, StoreError> {
    match w
    case CreatingTask(spec) => CreateTask(t, spec)
    case MovingTask(target, expected) => TransitionTask(t, target, expected)
    case CreatingRound(number) => CreateRound(t, number)
    case MovingRound(number, target, expected) => TransitionRound(t, number, target, expected)
    case Registering(id, row) => RegisterCandidate(t, id, row)
    case Scoring(score) => SaveScore(t, score)
    case Selecting(id, reason) => SetBest(t, id, reason)
  }

  /** A refused write is rolled back. */
  function Apply(t: Tables, w: Write): Tables {
    if Attempt(t, w).Ok? then Attempt(t, w).value else t
  }

  function ApplyAll(t: Tables, writes: seq<Write>): Tables
    decreases |writes|
  {
    if writes == [] then t
    else Apply(ApplyAll(t, writes[..|writes| - 1]), writes[|writes| - 1])
  }

  // ---------- the object the controller holds ----------

  class SQLiteStateStore {
    var tables: Tables

    constructor ()
      ensures tables == EMPTY_TABLES
    {
      tables := EMPTY_TABLES;
    }

    method CreateOrGetTask(spec: string) returns (record: Result<TaskRow, StoreError>)
      modifies this
      ensures tables == Apply(old(tables), CreatingTask(spec))
      ensures record.Ok? <==> Attempt(old(tables), CreatingTask(spec)).Ok?
      ensures record.Ok? ==> tables.task == Some(record.value)
      ensures record.Err? ==> record.error == Attempt(old(tables), CreatingTask(spec)).error
    {
      if tables.task.Some? {
        if tables.task.value.spec != spec {
          return Err(DifferentMetadata);
        }
        return Ok(tables.task.value);
      }
      var row := TaskRow(spec, TaskCreated, 0, None, 1);
      tables := tables.(task := Some(row), events := tables.events + [TaskEntered(TaskCreated)]);
      return Ok(row);
    }

    method MoveTask(target: TaskState, expected: Option<nat>) returns (record: Result<TaskRow, StoreError>)
      modifies this
      ensures tables == Apply(old(tables), MovingTask(target, expected))
      ensures record.Ok? <==> Attempt(old(tables), MovingTask(target, expected)).Ok?
      ensures record.Ok? ==> tables.task == Some(record.value)
      ensures record.Err? ==> record.error == Attempt(old(tables), MovingTask(target, expected)).error
    {
      if tables.task.None? {
        return Err(MissingRow);
      }
      var row := tables.task.value;
      var verdict := TASK_MACHINE.Transition(row.state, target);
      if verdict.Err? {
        return Err(IllegalTransition);
      }
      if expected.Some? && row.version != expected.value {
        return Err(StaleVersion);
      }
      row := row.(state := target, version := row.version + 1);
      tables := tables.(task := Some(row), events := tables.events + [TaskEntered(target)]);
      return Ok(row);
    }

    method CreateOrGetRound(number: int) returns (record: Result<RoundRow, StoreError>)
      modifies this
      ensures tables == Apply(old(tables), CreatingRound(number))
      ensures record.Ok? <==> Attempt(old(tables), CreatingRound(number)).Ok?
      ensures record.Ok? ==> number in tables.rounds && tables.rounds[number] == record.value
      ensures record.Err? ==> record.error == Attempt(old(tables), CreatingRound(number)).error
    {
      if number < 1 {
        return Err(InvalidArgument);
      }
      if number in tables.rounds {
        return Ok(tables.rounds[number]);
      }
      if tables.task.None? {
        return Err(MissingRow);
      }
      var task := tables.task.value;
      if task.state != RoundsRunning || number != task.currentRound + 1 {
        return Err(IllegalTransition);
      }
      if number > 1 {
        if number - 1 !in tables.rounds || tables.rounds[number - 1].state != RoundFinished {
          return Err(IllegalTransition);
        }
      }
      var row := RoundRow(RoundCreated, 1);
      tables := tables.(rounds := tables.rounds[number := row],
                        task := Some(task.(currentRound := number, version := task.version + 1)),
                        events := tables.events + [RoundEntered(number, RoundCreated)]);
      return Ok(row);
    }

    method MoveRound(number: nat, target: RoundState, expected: Option<nat>)
      returns (record: Result<RoundRow, StoreError>)
      modifies this
      ensures tables == Apply(old(tables), MovingRound(number, target, expected))
      ensures record.Ok? <==> Attempt(old(tables), MovingRound(number, target, expected)).Ok?
      ensures record.Ok? ==> number in tables.rounds && tables.rounds[number] == record.value
      ensures record.Err? ==> record.error == Attempt(old(tables), MovingRound(number, target, expected)).error
    {
      if number !in tables.rounds {
        return Err(MissingRow);
      }
      var row := tables.rounds[number];
      var verdict := ROUND_MACHINE.Transition(row.state, target);
      if verdict.Err? {
        return Err(IllegalTransition);
      }
      if expected.Some? && row.version != expected.value {
        return Err(StaleVersion);
      }
      row := RoundRow(target, row.version + 1);
      tables := tables.(rounds := tables.rounds[number := row],
                        events := tables.events + [RoundEntered(number, target)]);
      return Ok(row);
    }

    method Register(id: CandidateId, row: CandidateRow) returns (record: Result<CandidateRow, StoreError>)
      modifies this
      ensures tables == Apply(old(tables), Registering(id, row))
      ensures record.Ok? <==> Attempt(old(tables), Registering(id, row)).Ok?
      ensures record.Ok? ==> id in tables.candidates && tables.candidates[id] == record.value == row
      ensures record.Err? ==> record.error == Attempt(old(tables), Registering(id, row)).error
    {
      if id in tables.candidates {
        if tables.candidates[id] != row {
          return Err(DifferentMetadata);
        }
        return Ok(tables.candidates[id]);
      }
      if row.round !in tables.rounds {
        return Err(BrokenReference);
      }
      tables := tables.(candidates := tables.candidates[id := row],
                        events := tables.events + [CandidateRegistered(id)]);
      return Ok(row);
    }

    method SaveCandidateScore(score: CandidateScore) returns (record: Result<CandidateScore, StoreError>)
      modifies this
      ensures tables == Apply(old(tables), Scoring(score))
      ensures record.Ok? <==> Attempt(old(tables), Scoring(score)).Ok?
      ensures record.Ok? ==> score.candidateId in tables.scores && tables.scores[score.candidateId] == record.value == score
      ensures record.Err? ==> record.error == Attempt(old(tables), Scoring(score)).error
    {
      var id := score.candidateId;
      if id !in tables.candidates {
        return Err(MissingRow);
      }
      if tables.candidates[id].round != score.roundNumber {
        return Err(InvalidArgument);
      }
      if id in tables.scores && tables.scores[id] == score {
        return Ok(score);
      }
      tables := tables.(scores := tables.scores[id := score], events := tables.events + [ScoreCommitted(id)]);
      return Ok(score);
    }

    method SetBestCandidate(id: CandidateId, reason: string) returns (record: Result<CandidateScore, StoreError>)
      modifies this
      ensures tables == Apply(old(tables), Selecting(id, reason))
      ensures record.Ok? <==> Attempt(old(tables), Selecting(id, reason)).Ok?
      ensures record.Ok? ==> id in tables.scores && tables.scores[id] == record.value && record.value.IsPubliclyValid()
      ensures record.Ok? ==> tables.task.Some? && tables.task.value.best == Some(id)
      ensures record.Err? ==> record.error == Attempt(old(tables), Selecting(id, reason)).error
    {
      if id !in tables.scores || id !in tables.candidates {
        return Err(MissingRow);
      }
      var score := tables.scores[id];
      if !score.IsPubliclyValid() {
        return Err(NotPubliclyValid);
      }
      if tables.task.None? {
        return Err(MissingRow);
      }
      var row := tables.task.value;
      if row.best == Some(id) {
        return Ok(score);
      }
      tables := tables.(task := Some(row.(best := Some(id), version := row.version + 1)),
                        events := tables.events + [BestSelected(id, row.best, reason)]);
      return Ok(score);
    }

    method ListCandidateScores() returns (list: seq<CandidateScore>)
      ensures exists ids :: IsListing(tables.scores, list, ids)
    {
      list := [];
      ghost var ids: seq<CandidateId> := [];
      var rest := tables.scores.Keys;
      while rest != {}
        invariant rest <= tables.scores.Keys && |ids| == |list|
        invariant forall i | 0 <= i < |ids| :: ids[i] in tables.scores.Keys - rest && list[i] == tables.scores[ids[i]]
        invariant forall id | id in tables.scores.Keys - rest :: id in ids
        invariant forall i, id | 0 <= i < |list| && id in rest :: list[i].roundNumber <= tables.scores[id].roundNumber
        invariant forall i, j | 0 <= i < j < |ids| :: ids[i] != ids[j] && list[i].roundNumber <= list[j].roundNumber
      {
        var first :| first in rest;
        var others := rest - {first};
        while others != {}
          invariant others <= rest && first in rest
          invariant forall id | id in rest - others :: tables.scores[first].roundNumber <= tables.scores[id].roundNumber
        {
          var id :| id in others;
          others := others - {id};
          if tables.scores[id].roundNumber < tables.scores[first].roundNumber {
            first := id;
          }
        }
        rest := rest - {first};
        list, ids := list + [tables.scores[first]], ids + [first];
      }
      assert IsListing(tables.scores, list, ids);
    }
  }

  /** The rows of `scores` in round order, with the ids they are stored under. */
  ghost predicate IsListing(scores: map<CandidateId, CandidateScore>, list: seq<CandidateScore>, ids: seq<CandidateId>) {
    && |ids| == |list|
    && (forall i | 0 <= i < |ids| :: ids[i] in scores && list[i] == scores[ids[i]])
    && (forall id | id in scores :: id in ids)
    && (forall i, j | 0 <= i < j < |ids| :: ids[i] != ids[j] && list[i].roundNumber <= list[j].roundNumber)
  }

  // ---------- what the event log says ----------

  /** The states a task entered, oldest first. */
  function TaskPath(events: seq<StoreEvent>): seq<TaskState>
    decreases |events|
  {
    if events == [] then []
    else
      var last := events[|events| - 1];
      TaskPath(events[..|events| - 1]) + if last.TaskEntered? then [last.taskState] else []
  }

  /** The states a round entered, oldest first. */
  function RoundPath(events: seq<StoreEvent>, number: nat): seq<RoundState>
    decreases |events|
  {
    if events == [] then []
    else
      var last := events[|events| - 1];
      RoundPath(events[..|events| - 1], number)
      + if last.RoundEntered? && last.round == number then [last.roundState] else []
  }

  function RoundsCreated(events: seq<StoreEvent>): nat
    decreases |events|
  {
    if events == [] then 0
    else
      RoundsCreated(events[..|events| - 1])
      + if events[|events| - 1].RoundEntered? && events[|events| - 1].roundState == RoundCreated then 1 else 0
  }

  /** The BEST selections, oldest first. */
  function Selections(events: seq<StoreEvent>): seq<CandidateId>
    decreases |events|
  {
    if events == [] then []
    else
      var last := events[|events| - 1];
      Selections(events[..|events| - 1]) + if last.BestSelected? then [last.candidate] else []
  }

  lemma PathsAfterEvent(events: seq<StoreEvent>, e: StoreEvent)
    ensures TaskPath(events + [e]) == if e.TaskEntered? then TaskPath(events) + [e.taskState] else TaskPath(events)
    ensures forall n: nat :: RoundPath(events + [e], n)
              == if e.RoundEntered? && e.round == n then RoundPath(events, n) + [e.roundState] else RoundPath(events, n)
    ensures RoundsCreated(events + [e])
         == RoundsCreated(events) + if e.RoundEntered? && e.roundState == RoundCreated then 1 else 0
    ensures Selections(events + [e])
         == if e.BestSelected? then Selections(events) + [e.candidate] else Selections(events)
  {
    assert (events + [e])[..|events|] == events;
  }

  ghost predicate IsHistory<S>(machine: StrictStateMachine<S>, path: seq<S>, first: S, last: S) {
    path != [] && path[0] == first && path[|path| - 1] == last && machine.IsPath(path)
  }

  /** The task row is the endpoint of the legal path its events tell, its
      version counts them, and the BEST reference is the last selection. */
  ghost predicate TaskHistory(t: Tables) {
    if t.task.None? then
      t.rounds == map[] && TaskPath(t.events) == [] && RoundsCreated(t.events) == 0 && Selections(t.events) == []
    else
      var row := t.task.value;
      && IsHistory(TASK_MACHINE, TaskPath(t.events), TaskCreated, row.state)
      && row.currentRound == RoundsCreated(t.events)
      && row.version == |TaskPath(t.events)| + RoundsCreated(t.events) + |Selections(t.events)|
      && row.best == (if Selections(t.events) == [] then None
                      else Some(Selections(t.events)[|Selections(t.events)| - 1]))
      && (row.best.Some? ==> row.best.value in t.scores)
      && (forall n :: n in t.rounds <==> 1 <= n <= row.currentRound)
  }

  /** So is every round's, and all rounds but the last are finished. */
  ghost predicate RoundHistory(t: Tables, n: nat) {
    if n in t.rounds then
      && IsHistory(ROUND_MACHINE, RoundPath(t.events, n), RoundCreated, t.rounds[n].state)
      && t.rounds[n].version == |RoundPath(t.events, n)|
      && (n + 1 in t.rounds ==> t.rounds[n].state == RoundFinished)
    else RoundPath(t.events, n) == []
  }

  ghost predicate DurableHistory(t: Tables) {
    && TaskHistory(t)
    && (forall n: nat :: RoundHistory(t, n))
    && (forall id | id in t.candidates :: t.candidates[id].round in t.rounds)
    && (forall id | id in t.scores :: id in t.candidates)
  }

  lemma PathGrows<S>(machine: StrictStateMachine<S>, path: seq<S>, first: S, last: S, next: S)
    requires IsHistory(machine, path, first, last) && machine.CanTransition(last, next)
    ensures IsHistory(machine, path + [next], first, next)
  {
    var longer := path + [next];
    forall i | 0 < i < |longer| ensures machine.CanTransition(longer[i - 1], longer[i]) {
      if i < |path| {
        assert machine.CanTransition(path[i - 1], path[i]);
      }
    }
  }

  lemma FreshHistory<S>(machine: StrictStateMachine<S>, first: S)
    ensures IsHistory(machine, [first], first, first)
  {
  }

  /** A write of one event leaves every round it is not about alone. */
  lemma OtherRounds(t: Tables, u: Tables, e: StoreEvent)
    requires forall n: nat :: RoundHistory(t, n)
    requires u.events == t.events + [e]
    requires forall n: nat | !(e.RoundEntered? && e.round == n) ::
               && (n in u.rounds <==> n in t.rounds)
               && (n in t.rounds ==> u.rounds[n] == t.rounds[n])
    requires e.RoundEntered? && e.round !in t.rounds && e.round >= 1 && e.round - 1 in t.rounds ==>
               t.rounds[e.round - 1].state == RoundFinished
    ensures forall n: nat | !(e.RoundEntered? && e.round == n) :: RoundHistory(u, n)
  {
    hide IsHistory;
    PathsAfterEvent(t.events, e);
    forall n: nat | !(e.RoundEntered? && e.round == n)
      ensures RoundHistory(u, n)
    {
      assert RoundHistory(t, n);
      assert RoundPath(u.events, n) == RoundPath(t.events, n);
    }
  }

  lemma CreateTaskKeepsHistory(t: Tables, spec: string)
    requires DurableHistory(t) && CreateTask(t, spec).Ok?
    ensures DurableHistory(CreateTask(t, spec).value)
  {
    hide IsHistory, RoundHistory;
    var u := CreateTask(t, spec).value;
    if t.task.None? {
      FreshHistory(TASK_MACHINE, TaskCreated);
      PathsAfterEvent(t.events, TaskEntered(TaskCreated));
      assert TaskPath(u.events) == [TaskCreated];
      OtherRounds(t, u, TaskEntered(TaskCreated));
    }
  }

  lemma MoveTaskKeepsHistory(t: Tables, target: TaskState, expected: Option<nat>)
    requires DurableHistory(t) && TransitionTask(t, target, expected).Ok?
    ensures DurableHistory(TransitionTask(t, target, expected).value)
  {
    hide IsHistory, RoundHistory, StrictStateMachine.CanTransition;
    var u := TransitionTask(t, target, expected).value;
    PathsAfterEvent(t.events, TaskEntered(target));
    PathGrows(TASK_MACHINE, TaskPath(t.events), TaskCreated, t.task.value.state, target);
    OtherRounds(t, u, TaskEntered(target));
  }

  lemma CreateRoundKeepsHistory(t: Tables, number: int)
    requires DurableHistory(t) && CreateRound(t, number).Ok?
    ensures DurableHistory(CreateRound(t, number).value)
  {
    hide IsHistory, RoundHistory, TaskPath, RoundPath;
    if number !in t.rounds {
      var u := CreateRound(t, number).value;
      assert 0 !in t.rounds;
      assert number > 1 ==> u.rounds[number - 1] == t.rounds[number - 1];
      OtherRounds(t, u, RoundEntered(number, RoundCreated));
      FreshRound(t, number);
      NewRoundKeepsTask(t, number);
    }
  }

  lemma NewRoundKeepsTask(t: Tables, number: int)
    requires TaskHistory(t) && CreateRound(t, number).Ok? && number !in t.rounds
    ensures TaskHistory(CreateRound(t, number).value)
  {
    hide IsHistory, TaskPath, RoundsCreated, Selections;
    PathsAfterEvent(t.events, RoundEntered(number, RoundCreated));
    var u := CreateRound(t, number).value;
    assert u.events == t.events + [RoundEntered(number, RoundCreated)];
    assert forall n :: n in u.rounds <==> n in t.rounds || n == number;
  }

  lemma FreshRound(t: Tables, number: int)
    requires DurableHistory(t) && CreateRound(t, number).Ok? && number !in t.rounds
    ensures RoundHistory(CreateRound(t, number).value, number)
  {
    hide IsHistory, TaskPath, Selections, RoundsCreated, RoundPath;
    var u := CreateRound(t, number).value;
    assert RoundHistory(t, number);
    assert number + 1 !in u.rounds;
    FreshRoundPath(t.events, number);
  }

  lemma FreshRoundPath(events: seq<StoreEvent>, number: nat)
    requires RoundPath(events, number) == []
    ensures IsHistory(ROUND_MACHINE, RoundPath(events + [RoundEntered(number, RoundCreated)], number), RoundCreated, RoundCreated)
    ensures |RoundPath(events + [RoundEntered(number, RoundCreated)], number)| == 1
  {
    hide IsHistory;
    PathsAfterEvent(events, RoundEntered(number, RoundCreated));
    assert RoundPath(events + [RoundEntered(number, RoundCreated)], number) == [RoundCreated];
    FreshHistory(ROUND_MACHINE, RoundCreated);
  }

  lemma MoveRoundKeepsHistory(t: Tables, number: nat, target: RoundState, expected: Option<nat>)
    requires DurableHistory(t) && TransitionRound(t, number, target, expected).Ok?
    ensures DurableHistory(TransitionRound(t, number, target, expected).value)
  {
    hide IsHistory, RoundHistory, StrictStateMachine.CanTransition;
    var u := TransitionRound(t, number, target, expected).value;
    RoundEdgesClimb(t.rounds[number].state, target);
    PathsAfterEvent(t.events, RoundEntered(number, target));
    OtherRounds(t, u, RoundEntered(number, target));
    MovedRound(t, number, target, expected);
  }

  lemma MovedRound(t: Tables, number: nat, target: RoundState, expected: Option<nat>)
    requires RoundHistory(t, number) && TransitionRound(t, number, target, expected).Ok?
    ensures RoundHistory(TransitionRound(t, number, target, expected).value, number)
  {
    hide IsHistory, RoundPath, StrictStateMachine.CanTransition;
    PathsAfterEvent(t.events, RoundEntered(number, target));
    RoundEdgesClimb(t.rounds[number].state, target);
    PathGrows(ROUND_MACHINE, RoundPath(t.events, number), RoundCreated, t.rounds[number].state, target);
  }

  /** A write that touches neither lifecycles nor rounds. */
  lemma SideWriteKeepsHistory(t: Tables, u: Tables, e: StoreEvent)
    requires DurableHistory(t) && u.events == t.events + [e] && u.rounds == t.rounds
    requires e.CandidateRegistered? || e.ScoreCommitted? || e.BestSelected?
    requires t.task.Some? <==> u.task.Some?
    requires e.BestSelected? ==>
               t.task.Some? && e.candidate in u.scores
               && u.task.value == t.task.value.(best := Some(e.candidate), version := t.task.value.version + 1)
    requires !e.BestSelected? ==> u.task == t.task
    requires t.scores.Keys <= u.scores.Keys && forall id | id in u.scores :: id in u.candidates
    requires forall id | id in u.candidates :: u.candidates[id].round in u.rounds
    ensures DurableHistory(u)
  {
    hide IsHistory, RoundHistory;
    PathsAfterEvent(t.events, e);
    OtherRounds(t, u, e);
  }

  lemma OtherWritesKeepHistory(t: Tables, w: Write)
    requires w.Registering? || w.Scoring? || w.Selecting?
    requires DurableHistory(t)
    ensures DurableHistory(Apply(t, w))
  {
    hide TaskHistory, RoundHistory, CandidateScore.IsPubliclyValid;
    var u := Apply(t, w);
    if u.events != t.events {
      match w {
        case Registering(id, _) => SideWriteKeepsHistory(t, u, CandidateRegistered(id));
        case Scoring(score) => SideWriteKeepsHistory(t, u, ScoreCommitted(score.candidateId));
        case Selecting(id, reason) => SideWriteKeepsHistory(t, u, BestSelected(id, t.task.value.best, reason));
      }
    }
  }

  /** In every reachable state of the tables the durable history holds. */
  lemma {:induction false} EveryRunKeepsHistory(writes: seq<Write>)
    ensures DurableHistory(ApplyAll(EMPTY_TABLES, writes))
    decreases |writes|
  {
    hide DurableHistory, CreateTask, TransitionTask, CreateRound, TransitionRound, RegisterCandidate, SaveScore, SetBest;
    if writes == [] {
      EmptyHistory();
    } else {
      var front, last := writes[..|writes| - 1], writes[|writes| - 1];
      EveryRunKeepsHistory(front);
      var t := ApplyAll(EMPTY_TABLES, front);
      if Attempt(t, last).Ok? {
        match last {
          case CreatingTask(spec) => CreateTaskKeepsHistory(t, spec);
          case MovingTask(target, expected) => MoveTaskKeepsHistory(t, target, expected);
          case CreatingRound(number) => CreateRoundKeepsHistory(t, number);
          case MovingRound(number, target, expected) => MoveRoundKeepsHistory(t, number, target, expected);
          case _ => OtherWritesKeepHistory(t, last);
        }
      }
    }
  }

  lemma EmptyHistory()
    ensures DurableHistory(EMPTY_TABLES)
  {
  }

  /** Lifecycles are short: at most ten transitions of a round and six of a task,
      so the versions are bounded by what else they count. */
  lemma LifecyclesAreShort(writes: seq<Write>, number: nat)
    ensures var t := ApplyAll(EMPTY_TABLES, writes);
            && (number in t.rounds ==> 1 <= t.rounds[number].version <= 11)
            && (t.task.Some? ==>
                  1 <= t.task.value.version - t.task.value.currentRound - |Selections(t.events)| <= 7)
  {
    var t := ApplyAll(EMPTY_TABLES, writes);
    EveryRunKeepsHistory(writes);
    assert RoundHistory(t, number);
    if number in t.rounds {
      RoundPathsAreShort(RoundPath(t.events, number));
    }
    if t.task.Some? {
      TaskPathsAreShort(TaskPath(t.events));
    }
  }

  /** A round that got past the response has entered every mandatory checkpoint
      before it, in particular source validation; a finished one also feedback. */
  lemma FinishedRoundsPassedCheckpoints(writes: seq<Write>, number: nat, checkpoint: RoundState)
    requires RoundRank(checkpoint) <= 4 || RoundRank(checkpoint) >= 9
    ensures var t := ApplyAll(EMPTY_TABLES, writes);
            number in t.rounds && RoundRank(checkpoint) <= RoundRank(t.rounds[number].state) ==>
              checkpoint in RoundPath(t.events, number)
  {
    var t := ApplyAll(EMPTY_TABLES, writes);
    EveryRunKeepsHistory(writes);
    assert RoundHistory(t, number);
    if number in t.rounds && RoundRank(checkpoint) <= RoundRank(t.rounds[number].state) {
      CheckpointsAreVisited(RoundPath(t.events, number), checkpoint);
    }
  }

  // ---------- compare-and-swap ----------

  function RoundVersion(t: Tables, number: nat): nat {
    if number in t.rounds then t.rounds[number].version else 0
  }

  function TaskVersion(t: Tables): nat {
    if t.task.Some? then t.task.value.version else 0
  }

  lemma OneWriteRaisesVersions(t: Tables, w: Write, number: nat)
    ensures RoundVersion(t, number) <= RoundVersion(Apply(t, w), number)
    ensures TaskVersion(t) <= TaskVersion(Apply(t, w))
  {
    hide StrictStateMachine.CanTransition, CandidateScore.IsPubliclyValid;
  }

  lemma {:induction false} VersionsNeverFall(t: Tables, writes: seq<Write>, number: nat)
    ensures RoundVersion(t, number) <= RoundVersion(ApplyAll(t, writes), number)
    ensures TaskVersion(t) <= TaskVersion(ApplyAll(t, writes))
    decreases |writes|
  {
    hide Apply;
    if writes != [] {
      VersionsNeverFall(t, writes[..|writes| - 1], number);
      OneWriteRaisesVersions(ApplyAll(t, writes[..|writes| - 1]), writes[|writes| - 1], number);
    }
  }

  /** Of two updates of a row that expect the same version, at most one
      succeeds, whatever writes come between them. */
  lemma AtMostOneUpdatePerVersion(t: Tables, number: nat, version: nat, a: RoundState, b: RoundState,
                                  c: TaskState, d: TaskState, between: seq<Write>)
    ensures TransitionRound(t, number, a, Some(version)).Ok? ==>
              var later := ApplyAll(Apply(t, MovingRound(number, a, Some(version))), between);
              TransitionRound(later, number, b, Some(version)).Err?
    ensures TransitionTask(t, c, Some(version)).Ok? ==>
              var later := ApplyAll(Apply(t, MovingTask(c, Some(version))), between);
              TransitionTask(later, d, Some(version)).Err?
  {
    VersionsNeverFall(Apply(t, MovingRound(number, a, Some(version))), between, number);
    VersionsNeverFall(Apply(t, MovingTask(c, Some(version))), between, number);
  }

  /** Two logs that agree leave the same task lifecycle, rounds and BEST: the
      events determine those rows. */
  lemma EventsDetermineRows(a: seq<Write>, b: seq<Write>)
    ensures var s, t := ApplyAll(EMPTY_TABLES, a), ApplyAll(EMPTY_TABLES, b);
            s.events == t.events ==>
              && s.rounds == t.rounds
              && (s.task.Some? <==> t.task.Some?)
              && (s.task.Some? ==> s.task.value.(spec := t.task.value.spec) == t.task.value)
  {
    hide Apply;
    var s, t := ApplyAll(EMPTY_TABLES, a), ApplyAll(EMPTY_TABLES, b);
    EveryRunKeepsHistory(a);
    EveryRunKeepsHistory(b);
    if s.events == t.events {
      assert s.task.Some? <==> TaskPath(s.events) != [];
      assert s.rounds.Keys == t.rounds.Keys;
      forall n | n in s.rounds ensures s.rounds[n] == t.rounds[n] {
        assert RoundHistory(s, n) && RoundHistory(t, n);
      }
    }
  }
}
