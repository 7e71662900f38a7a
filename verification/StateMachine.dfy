/** Strict lifecycle graphs of rounds and tasks. */
module StateMachine {
  import opened Wrappers

  datatype RoundState =
    | RoundCreated | PromptCommitted | ModelRequestSent | ModelResponseCommitted
    | SourceValidated | CompileFinished | CorrectnessFinished | BenchmarkFinished
    | ProfileFinished | FeedbackCommitted | RoundFinished

  datatype TaskState =
    | TaskCreated | RoundsRunning | SelectBestCandidate | HiddenCorrectnessTest
    | FinalBenchmark | FinalFullProfile | TaskFinished | TaskFailed

  datatype TransitionError = InvalidTransition

  /** An immutable directed graph with its terminal states. */
  datatype StrictStateMachine<S(==)> = StrictStateMachine(transitions: map<S, set<S>>, terminal: set<S>) {
    function Allowed(current: S): set<S> {
      if current in transitions then transitions[current] else {}
    }

    predicate CanTransition(current: S, target: S) {
      target in Allowed(current)
    }

    function Transition(current: S, target: S): (r: Result<S, TransitionError>)
      ensures r.Ok? <==> CanTransition(current, target)
      ensures r.Ok? ==> r.value == target
    {
      if CanTransition(current, target) then Ok(target) else Err(InvalidTransition)
    }

    ghost predicate IsPath(states: seq<S>) {
      forall i | 0 < i < |states| :: CanTransition(states[i - 1], states[i])
    }

    /** Validates all adjacent edges of a proposed state history. */
    method ValidatePath(states: seq<S>) returns (verdict: Result<(), TransitionError>)
      ensures verdict.Ok? <==> IsPath(states)
    {
      if states == [] {
        return Ok(());
      }
      var previous := states[0];
      var i := 1;
      while i < |states|
        invariant 1 <= i <= |states| && previous == states[i - 1]
        invariant IsPath(states[..i])
      {
        if !CanTransition(previous, states[i]) {
          assert !CanTransition(states[i - 1], states[i]);
          return Err(InvalidTransition);
        }
        previous := states[i];
        i := i + 1;
      }
      assert states[..i] == states;
      verdict := Ok(());
    }
  }

  const ROUND_MACHINE: StrictStateMachine<RoundState> := StrictStateMachine(map[
    RoundCreated := {PromptCommitted},
    PromptCommitted := {ModelRequestSent},
    ModelRequestSent := {ModelResponseCommitted},
    ModelResponseCommitted := {SourceValidated},
    SourceValidated := {CompileFinished, FeedbackCommitted},
    CompileFinished := {CorrectnessFinished, FeedbackCommitted},
    CorrectnessFinished := {BenchmarkFinished, FeedbackCommitted},
    BenchmarkFinished := {ProfileFinished},
    ProfileFinished := {FeedbackCommitted},
    FeedbackCommitted := {RoundFinished},
    RoundFinished := {}], {RoundFinished})

  const TASK_MACHINE: StrictStateMachine<TaskState> := StrictStateMachine(map[
    TaskCreated := {RoundsRunning, TaskFailed},
    RoundsRunning := {SelectBestCandidate, TaskFailed},
    SelectBestCandidate := {HiddenCorrectnessTest, TaskFailed},
    HiddenCorrectnessTest := {FinalBenchmark, TaskFailed},
    FinalBenchmark := {FinalFullProfile, TaskFinished, TaskFailed},
    FinalFullProfile := {TaskFinished, TaskFailed},
    TaskFinished := {},
    TaskFailed := {}], {TaskFinished, TaskFailed})

  /** Position along the longest round path. */
  function RoundRank(s: RoundState): nat {
    match s
    case RoundCreated => 0
    case PromptCommitted => 1
    case ModelRequestSent => 2
    case ModelResponseCommitted => 3
    case SourceValidated => 4
    case CompileFinished => 5
    case CorrectnessFinished => 6
    case BenchmarkFinished => 7
    case ProfileFinished => 8
    case FeedbackCommitted => 9
    case RoundFinished => 10
  }

  function TaskRank(s: TaskState): nat {
    match s
    case TaskCreated => 0
    case RoundsRunning => 1
    case SelectBestCandidate => 2
    case HiddenCorrectnessTest => 3
    case FinalBenchmark => 4
    case FinalFullProfile => 5
    case TaskFinished => 6
    case TaskFailed => 6
  }

  /** Every round edge climbs; only the jump to feedback climbs by more than one. */
  lemma RoundEdgesClimb(a: RoundState, b: RoundState)
    requires ROUND_MACHINE.CanTransition(a, b)
    ensures RoundRank(a) < RoundRank(b)
    ensures RoundRank(b) == RoundRank(a) + 1 || (b.FeedbackCommitted? && RoundRank(a) >= 4)
  {
    match a {
      case RoundCreated => case PromptCommitted => case ModelRequestSent => case ModelResponseCommitted =>
      case SourceValidated => case CompileFinished => case CorrectnessFinished => case BenchmarkFinished =>
      case ProfileFinished => case FeedbackCommitted => case RoundFinished =>
    }
  }

  lemma TaskEdgesClimb(a: TaskState, b: TaskState)
    requires TASK_MACHINE.CanTransition(a, b)
    ensures TaskRank(a) < TaskRank(b)
  {
    match a {
      case TaskCreated => case RoundsRunning => case SelectBestCandidate => case HiddenCorrectnessTest =>
      case FinalBenchmark => case FinalFullProfile => case TaskFinished => case TaskFailed =>
    }
  }

  lemma PathWithoutLast<S>(machine: StrictStateMachine<S>, states: seq<S>)
    requires machine.IsPath(states) && |states| > 1
    ensures machine.IsPath(states[..|states| - 1])
    ensures machine.CanTransition(states[|states| - 2], states[|states| - 1])
  {
    var front := states[..|states| - 1];
    forall i | 0 < i < |front| ensures machine.CanTransition(front[i - 1], front[i]) {
      assert front[i] == states[i] && front[i - 1] == states[i - 1];
    }
  }

  /** A legal round history has at most ten transitions. */
  lemma {:induction false} RoundPathsAreShort(states: seq<RoundState>)
    requires ROUND_MACHINE.IsPath(states) && states != []
    ensures |states| - 1 <= RoundRank(states[|states| - 1]) - RoundRank(states[0]) <= 10
    decreases |states|
  {
    hide StrictStateMachine.CanTransition, StrictStateMachine.IsPath;
    if |states| > 1 {
      PathWithoutLast(ROUND_MACHINE, states);
      RoundPathsAreShort(states[..|states| - 1]);
      RoundEdgesClimb(states[|states| - 2], states[|states| - 1]);
    }
  }

  /** A history that passes the level of a mandatory checkpoint (prompt, request,
      response, source validation, feedback) contains that checkpoint. */
  lemma {:induction false} CheckpointsAreVisited(states: seq<RoundState>, checkpoint: RoundState)
    requires ROUND_MACHINE.IsPath(states) && states != []
    requires RoundRank(checkpoint) <= 4 || RoundRank(checkpoint) >= 9
    requires RoundRank(states[0]) <= RoundRank(checkpoint) <= RoundRank(states[|states| - 1])
    ensures checkpoint in states
    decreases |states|
  {
    if RoundRank(checkpoint) < RoundRank(states[|states| - 1]) {
      PathWithoutLast(ROUND_MACHINE, states);
      RoundEdgesClimb(states[|states| - 2], states[|states| - 1]);
      CheckpointsAreVisited(states[..|states| - 1], checkpoint);
    } else {
      assert states[|states| - 1] == checkpoint;
    }
  }

  /** A legal task history has at most six transitions. */
  lemma {:induction false} TaskPathsAreShort(states: seq<TaskState>)
    requires TASK_MACHINE.IsPath(states) && states != []
    ensures |states| - 1 <= TaskRank(states[|states| - 1]) - TaskRank(states[0]) <= 6
    decreases |states|
  {
    if |states| > 1 {
      PathWithoutLast(TASK_MACHINE, states);
      TaskPathsAreShort(states[..|states| - 1]);
      TaskEdgesClimb(states[|states| - 2], states[|states| - 1]);
    }
  }

  /** The declared terminal states are exactly the states with no way out; from
      any other round state some edge climbs, and any other task can fail. */
  lemma TerminalMeansStuck()
    ensures forall s: RoundState :: s in ROUND_MACHINE.terminal <==> ROUND_MACHINE.Allowed(s) == {}
    ensures forall s: TaskState :: s in TASK_MACHINE.terminal <==> TASK_MACHINE.Allowed(s) == {}
    ensures forall s: RoundState :: s !in ROUND_MACHINE.terminal ==>
              exists t :: ROUND_MACHINE.CanTransition(s, t) && RoundRank(s) < RoundRank(t)
    ensures forall s: TaskState :: s !in TASK_MACHINE.terminal ==> TASK_MACHINE.CanTransition(s, TaskFailed)
  {
    forall s: RoundState | s !in ROUND_MACHINE.terminal
      ensures ROUND_MACHINE.Allowed(s) != {}
      ensures exists t :: ROUND_MACHINE.CanTransition(s, t) && RoundRank(s) < RoundRank(t)
    {
      var t := match s
        case RoundCreated => PromptCommitted
        case PromptCommitted => ModelRequestSent
        case ModelRequestSent => ModelResponseCommitted
        case ModelResponseCommitted => SourceValidated
        case BenchmarkFinished => ProfileFinished
        case FeedbackCommitted => RoundFinished
        case _ => FeedbackCommitted;
      assert ROUND_MACHINE.CanTransition(s, t);
    }
    forall s: TaskState | s !in TASK_MACHINE.terminal
      ensures TaskFailed in TASK_MACHINE.Allowed(s)
    {
      match s {
        case TaskCreated => case RoundsRunning => case SelectBestCandidate => case HiddenCorrectnessTest =>
        case FinalBenchmark => case FinalFullProfile => case TaskFinished => case TaskFailed =>
      }
    }
  }
}
