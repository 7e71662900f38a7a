# Durable protocols of the kernel lab, verified

The kernel lab runs two coupled durable protocols over one SQLite database and
one artifact tree. Workers and a controller share a lease queue of evaluation
jobs; the controller drives each task through prompted rounds, an online BEST
selection and final hidden gates, and may be killed and started again at any
moment. This project models both protocols and a few self-contained algorithms
around them in Dafny, and proves what they keep.

`dafny verify dfyconfig.toml` checks everything.

## How it is organised

- **Lease queue.** `JobModel` gives the seven atomic row changes of a job, the
  queue operations as lists of them, and runs as arbitrary interleavings of
  operations with arbitrary clock values. `QueueTheorems` and `QueueDrain` hold
  the whole-run theorems. `JobQueue` is the queue as an object whose methods are
  proved to perform exactly those operations. `BrokerWait` is the polling client,
  with other clients acting between any two of its transactions. `Ordering` has
  the meaning of ORDER BY.
- **Storage.** `StateMachine` (lifecycle graphs), `StateStore` (task, round,
  candidate and score rows with versions and events), `EventLog` (idempotent
  append, paging, the events projection), `Transactions` (nested blocks over
  savepoints), `ArtifactStore` (create-if-absent files).
- **Controller.** `ControllerModel` defines what is durable about a task, and one
  invariant over it. `Controller` is the controller as an object over the store
  and the artifacts: before every durable write the process may die, and a
  resumed run starts over from round one with only the durable state. Every
  method keeps the invariant at every such point, so it holds after any number
  of crashes and resumes; the provider and the backend are arbitrary functions,
  different in every run. `ControllerSteps`, `ControllerTask` and
  `ControllerFacts` are the steps of that proof, `ControllerTheorems` what the
  invariant means. `DecisionRecovery` says what a crash between a BEST selection
  and its feedback changes, `StrandedRun` is a concrete run into the stuck
  state.
- **Policies and algorithms.** `Scoring` (online comparison), `ModelResponse`
  (structured responses and the bounded format repair), `Trajectory` (phase plan
  and the verifier's count test), `Utf8`, `SourceGuard`, `Percentile`;
  `Text` has the notion of white space they share.

## What the proofs found

- **Resubmitting a job can conflict.** The broker always requests the same
  `available_at` (`src/ascend_kernel_lab/broker/backend.py:43`), but a lease
  expiry or a reported failure moves the stored `available_at`, and the enqueue
  comparison includes it. From then on the identical request raises an
  idempotency conflict, while `docs/acceptance-910c.md:120` promises idempotent
  resubmission. `ReplayedEnqueue` gives the exact condition,
  `ResubmissionCanConflict` a run.
- **A key replayed under another id is lost while its job runs.** Enqueue answers
  such a request with the row that holds the key, but the waiting client then polls
  the id of its own request
  (`src/ascend_kernel_lab/broker/backend.py:741-757`), which is not in the table
  (`Wait`). The broker never sends one, since id and key come from one digest
  (`src/ascend_kernel_lab/broker/backend.py:547-558`, `BrokerKeysAreOwn`).
- **One crash point strands a round.** When the benchmark is the first failed
  stage, PROFILE_FINISHED is written as well; a crash between that write and
  FEEDBACK_COMMITTED leaves a state that the guard at
  `src/ascend_kernel_lab/orchestration/controller.py:2197` refuses on every
  resume. `StuckIsReachable` is a run into it. Every other crash point recovers,
  by exactly the transitions that are left (`RunRound`, `RoundRecoveryIsExact`).
- **A required infrastructure retry is never taken.** The evaluation of the last
  round is committed once and read back on every resume
  (`src/ascend_kernel_lab/orchestration/controller.py:499-504`), so a task whose
  last evaluation requires a retry never ends (`RunTask`, `Supervise`).
- **Recovered feedback can misreport the incumbent before the round.** After a
  crash between the selection of a new BEST and its feedback, the incumbent is
  replayed over scores without the paired measurements. BEST itself is
  unaffected. The combined worker stage pairs every benchmarked case once there is
  an incumbent (`src/ascend_kernel_lab/worker/stage_entry.py:719-795`, `1194-1216`),
  and then the comparison and best_after are recovered too
  (`PairedDecisionIsRecovered`): only best_before can be wrong, exactly when a
  round on which the two replays part has no later one both select
  (`BestBeforeRecoveryIsExact`, `RecoveryCanMisreport`). A backend that measures
  only some rounds in pairs can also lose the decision (`DecisionRecoveryIsExact`,
  `MixedMeasurementsCanMisreport`).
- **A positive repair budget always fails verification.** The round-count tests
  demand as many optimization rounds as rounds, but the first round repairs
  (`VerifierAcceptsIffNoRepairBudget`).
- **Some malformed replies escape the format repair.** A `status` that is a list or
  an object raises a type error, a `code` with a lone surrogate (as the escape
  `\ud800` gives) an encoding error, and the JSON parser may give up other than on
  syntax. None of these is a response error, so the reply is neither repaired nor
  does it consume the round (`EscapeIsExact`, `EscapingReplies`).
- **Redacted timeouts are not recovered.** The rule that turns a dead-lettered
  StageTimeout into a timeout outcome looks at the redacted error for hidden
  suites, so there it reports a failure (`HiddenTimeoutsAreNotRecovered`).

## Model

| member | source | states |
|---|---|---|
| JobModel.SweepLegal | src/ascend_kernel_lab/storage/job_queue.py:178-237 | A sweep is a legal list of single-row expiries, in order of expiry and job id, that releases exactly the leases that ran out and touches no other row, index or token |
| JobModel.RunIsHistory | src/ascend_kernel_lab/storage/job_queue.py:114-586 | Any interleaving of the seven operations by any number of clients, with any clock values, is a list of single-row changes, each legal in the state it meets |
| QueueTheorems.StepKeepsInv | src/ascend_kernel_lab/storage/job_queue.py:304-320 | Every row change keeps: lease columns set iff LEASED, result set iff SUCCEEDED, 0 <= attempts <= max, waiting jobs have attempts left, leased jobs used at least one, distinct lease tokens, the key index exact |
| QueueTheorems.EveryRunKeepsInv | src/ascend_kernel_lab/storage/database.py:135-166 | The lease CHECK and the other table constraints hold after every run from the empty queue |
| QueueTheorems.LeaseMatchesHolder | src/ascend_kernel_lab/storage/job_queue.py:359-402 | After any history the stored lease token is that of the last claim not yet expired, finished or released, a function of the history alone |
| QueueTheorems.Fencing | src/ascend_kernel_lab/storage/job_queue.py:338-547 | A heartbeat, completion or failure report changes nothing unless its token is that of the latest claim of the job and that claim still holds it |
| QueueTheorems.StaleWorkerIsRefused | src/ascend_kernel_lab/storage/job_queue.py:404-457 | A worker whose lease was lost can never change the job again, whatever it reports and whatever its clock says |
| QueueTheorems.ClaimTokensDistinct | src/ascend_kernel_lab/storage/job_queue.py:271-320 | No two claims of a history share a token |
| QueueTheorems.TerminalRowsAreFrozen | src/ascend_kernel_lab/storage/job_queue.py:404-586 | SUCCEEDED, DEAD and CANCELLED rows are the same after any further run |
| QueueTheorems.OneResultPerJob | src/ascend_kernel_lab/storage/job_queue.py:404-457 | At most one result is ever committed per job; it is the stored one and exists iff the job is SUCCEEDED |
| QueueTheorems.EventsDetermineJobs | src/ascend_kernel_lab/storage/job_queue.py:164-173 | Replaying a job's events alone rebuilds its status and attempt count in every reachable state; no impossible event occurs |
| QueueTheorems.LogDeterminesQueue | src/ascend_kernel_lab/storage/job_queue.py:227-236 | For every run: the trail replays to the row, and LEASED minus LEASE_EXPIRED, RETRY_SCHEDULED, DEAD and SUCCEEDED events is 1 if the job is leased and 0 otherwise |
| QueueTheorems.TrailOnlyGrows | src/ascend_kernel_lab/storage/database.py:212-225 | The event trail is append-only along every history |
| QueueTheorems.StepSpendsBudget | src/ascend_kernel_lab/storage/job_queue.py:459-547 | Every change of an existing job except a heartbeat strictly lowers 2*(max - attempts) + (1 if leased), or 0 when terminal |
| QueueTheorems.EventsPerJobBounded | src/ascend_kernel_lab/storage/job_queue.py:203-236 | A job never produces more than 1 + 2*max_attempts events |
| QueueTheorems.NoJobStranded | src/ascend_kernel_lab/storage/job_queue.py:273-302 | A claim comes back empty iff no waiting job is due and no lease that ran out has an attempt left: the attempt filter strands nothing |
| QueueTheorems.ReplayedEnqueue | src/ascend_kernel_lab/storage/job_queue.py:99-176 | Exact condition for idempotent enqueue: in every later state a repeated request, under the same id or under any other with the same key, changes nothing, returns the stored row iff available_at is still the requested one and its id is not that of another row, else conflicts; available_at stays as long as no failure or expiry rescheduled the job |
| QueueTheorems.RescheduledRequestConflicts | src/ascend_kernel_lab/storage/job_queue.py:205-212 | The failing family: after a rescheduling to another time the identical request conflicts |
| BrokerWait.ResubmissionCanConflict | src/ascend_kernel_lab/broker/backend.py:547-559 | A run from the empty queue (submit, claim, retryable failure) after which the identical submission of the broker conflicts |
| QueueDrain.ClaimOnSwept | src/ascend_kernel_lab/storage/job_queue.py:273-302 | One claim on a swept queue takes the first ready job in claim order and leaves the others ready and in the same order |
| QueueDrain.DrainSorts | src/ascend_kernel_lab/storage/job_queue.py:252-335 | Any number of claims at one clock value returns jobs ready after the first sweep, each once, by priority descending, available_at, created_at, job_id, leaving out only jobs behind all the returned ones; then None |
| Text.BlankMeansStripped | src/ascend_kernel_lab/storage/job_queue.py:262-263 | The test for a blank text is that stripping white space from both ends leaves nothing |
| JobQueue.EvaluationJobQueue.Enqueue | src/ascend_kernel_lab/storage/job_queue.py:99-176 | The whole new state and the answer: insertion, replay under the stored id or its key, and conflict |
| JobQueue.EvaluationJobQueue.SweepExpired | src/ascend_kernel_lab/storage/job_queue.py:178-250 | The loop over expired rows performs the specified sweep and returns the new rows in order |
| JobQueue.EvaluationJobQueue.Claim | src/ascend_kernel_lab/storage/job_queue.py:252-335 | Sweep, choice of the first ready row, and its lease; None iff nothing is ready; bad arguments refused unchanged |
| JobQueue.EvaluationJobQueue.Heartbeat | src/ascend_kernel_lab/storage/job_queue.py:359-402 | Extends the lease iff the caller holds a live one; otherwise lease lost and nothing changes |
| JobQueue.EvaluationJobQueue.Complete | src/ascend_kernel_lab/storage/job_queue.py:404-457 | Stores the result iff the caller holds a live lease |
| JobQueue.EvaluationJobQueue.Fail | src/ascend_kernel_lab/storage/job_queue.py:459-547 | Releases into retry-wait or dead-letter iff the caller holds a live lease |
| JobQueue.EvaluationJobQueue.CancelJob | src/ascend_kernel_lab/storage/job_queue.py:549-586 | Cancels iff the job is waiting, and says so |
| BrokerWait.Wait | src/ascend_kernel_lab/broker/backend.py:741-783 | With other clients acting between any two transactions and a finite timeout: terminates; a conflict iff enqueue conflicts; otherwise it reports the outcome of the row of exactly this request, an answer iff that row SUCCEEDED with a result that parses and a protocol error iff it SUCCEEDED with one that does not, or a wait timeout for a row that did not succeed. When the key belongs to a row of another id: that row's outcome if it is terminal, and otherwise the request's own id is polled, which has disappeared unless somebody else stores it |
| BrokerWait.BrokerKeysAreOwn | src/ascend_kernel_lab/broker/backend.py:547-558 | As long as every client derives id and key from one digest, no row of another id ever holds the key of a request |
| BrokerWait.ProtocolErrorIsExact | src/ascend_kernel_lab/broker/backend.py:588-694 | A terminal row is a protocol error iff it SUCCEEDED and its stored result does not parse; one that parses is the answer, as stored |
| BrokerWait.GiveUp | src/ascend_kernel_lab/broker/backend.py:761-778 | On timeout a concurrent completion wins, parsed or refused as at any other time; a timeout is reported only for a job that is not SUCCEEDED, and as cancelled only for a CANCELLED one |
| BrokerWait.HiddenTimeoutsAreNotRecovered | src/ascend_kernel_lab/broker/backend.py:694-733 | A dead-lettered StageTimeout becomes a timeout outcome iff the job is not of a hidden suite; every other dead letter is a failure |
| BrokerWait.AnswersAgree | src/ascend_kernel_lab/broker/backend.py:687-739 | Whatever one client was told about a settled job, every later client is told the same |
| BrokerWait.AnswerIsTheCommittedResult | src/ascend_kernel_lab/broker/backend.py:687-694 | An answer is the one result a worker committed while holding the lease |
| EventLog.Log.Append | src/ascend_kernel_lab/storage/event_log.py:49-115 | Appends with the next sequence for a new event id; an identical replay returns the stored row unchanged; other content under the same id conflicts; a new event with a round number below one is refused |
| EventLog.Log.Read | src/ascend_kernel_lab/storage/event_log.py:149-191 | A page is the first `limit` matching rows after the exclusive cursor, in sequence order; bad arguments are refused |
| EventLog.CursorSplits | src/ascend_kernel_lab/storage/event_log.py:166-191 | Moving the cursor to a returned row splits the selection exactly there |
| EventLog.Log.MaterializeEvents | src/ascend_kernel_lab/orchestration/controller.py:2541-2570 | With commits between pages, the paging loop terminates and collects exactly what the log holds for the experiment when the empty page is read |
| EventLog.ProjectionIsComplete | src/ascend_kernel_lab/orchestration/controller.py:2541-2570 | That selection is every event of the experiment, each once, in sequence order |
| Transactions.Connection.RunTransaction | src/ascend_kernel_lab/storage/database.py:398-428 | Begin/commit/rollback outermost and savepoint/rollback-to/release inside leave what the reference meaning keeps, even if a savepoint name repeats |
| Transactions.Connection.Run | src/ascend_kernel_lab/storage/database.py:398-428 | For every nesting of blocks with exceptions raised and caught anywhere and the process killed anywhere: exactly the writes whose whole chain of enclosing blocks exited normally survive |
| Transactions.SurvivorsOfBlock | src/ascend_kernel_lab/storage/database.py:406-416 | A block keeps what its body keeps if left normally and nothing otherwise |
| Transactions.BlockIsAllOrNothing | src/ascend_kernel_lab/storage/database.py:418-428 | One block keeps all its survivors or none, and some only if it was left normally |
| StateMachine.StrictStateMachine.ValidatePath | src/ascend_kernel_lab/domain/state_machine.py:58-68 | The loop accepts a history iff every adjacent pair is an edge |
| StateMachine.RoundPathsAreShort | src/ascend_kernel_lab/domain/state_machine.py:71-91 | A legal round history has at most ten transitions |
| StateMachine.CheckpointsAreVisited | src/ascend_kernel_lab/domain/state_machine.py:71-91 | A legal round history that passes the level of the prompt, request, response, source or feedback checkpoint contains it |
| StateMachine.TaskPathsAreShort | src/ascend_kernel_lab/domain/state_machine.py:93-118 | A legal task history has at most six transitions |
| StateMachine.TerminalMeansStuck | src/ascend_kernel_lab/domain/state_machine.py:71-130 | Declared terminal states are exactly those without an edge; every other round state has an edge onward and every other task state one to TASK_FAILED |
| StateStore.SQLiteStateStore.CreateOrGetTask | src/ascend_kernel_lab/storage/state_store.py:275-342 | Creates the row once; the same identity again returns it, another is refused |
| StateStore.SQLiteStateStore.MoveTask | src/ascend_kernel_lab/storage/state_store.py:354-415 | Legal edge, then expected version, then state, version + 1 and event in one step; the order of refusals as in the source |
| StateStore.SQLiteStateStore.CreateOrGetRound | src/ascend_kernel_lab/storage/state_store.py:417-519 | Next number only, task running, previous round finished; an existing round is returned |
| StateStore.SQLiteStateStore.MoveRound | src/ascend_kernel_lab/storage/state_store.py:534-606 | Compare-and-swap along a legal edge with its event |
| StateStore.SQLiteStateStore.Register | src/ascend_kernel_lab/storage/state_store.py:608-685 | Immutable candidate rows of existing rounds; refused without a write for other content or a round that does not exist |
| StateStore.SQLiteStateStore.SaveCandidateScore | src/ascend_kernel_lab/storage/state_store.py:687-768 | Upsert of a registered candidate's score; an equal score writes nothing |
| StateStore.SQLiteStateStore.SetBestCandidate | src/ascend_kernel_lab/storage/state_store.py:803-874 | Only stored, publicly valid scores; an equal selection writes nothing |
| StateStore.SQLiteStateStore.ListCandidateScores | src/ascend_kernel_lab/storage/state_store.py:788-801 | Every score row once, in round order |
| StateStore.EveryRunKeepsHistory | src/ascend_kernel_lab/storage/state_store.py:354-606 | After any writes: rounds are exactly 1..current_round with all but the last finished; each state ends a legal path of its events; round version counts the path, task version the path, the rounds created and the BEST selections; BEST is the last selection and has a score |
| StateStore.LifecyclesAreShort | src/ascend_kernel_lab/storage/state_store.py:534-606 | Hence versions are bounded: a round's by 11, a task's by 7 plus rounds and selections |
| StateStore.FinishedRoundsPassedCheckpoints | src/ascend_kernel_lab/storage/state_store.py:534-606 | A stored round at or past a mandatory checkpoint has an event for it |
| StateStore.AtMostOneUpdatePerVersion | src/ascend_kernel_lab/storage/state_store.py:558-586 | Of two updates expecting the same version at most one succeeds, whatever is written between them |
| StateStore.EventsDetermineRows | src/ascend_kernel_lab/storage/state_store.py:354-606 | Two runs with equal event logs have equal rounds, task lifecycle, version and BEST |
| ArtifactStore.AtomicArtifactStore.PutStream | src/ascend_kernel_lab/storage/artifact_store.py:144-223 | The chunk loop stores the whole stream or nothing; create-if-absent, same content accepted, other content a conflict, overwrite replaces, the size limit refuses |
| ArtifactStore.CommittedFilesAreImmutable | src/ascend_kernel_lab/storage/artifact_store.py:193-217 | A committed file keeps its content through any puts that do not overwrite; the same content is accepted again and other content refused |
| Scoring.FoldOnlineBest | src/ascend_kernel_lab/orchestration/controller.py:938-945 | The fold over stored scores computes the last of the successive BEST candidates |
| Scoring.NewBestImproves | src/ascend_kernel_lab/domain/scoring.py:48-88 | NEW_BEST raises geomean above best*(1.01) and keeps the minimum above best*(1 - tolerance) |
| Scoring.GainsCompound | src/ascend_kernel_lab/domain/scoring.py:68-88 | k NEW_BEST steps raise geomean above initial*(101/100)^k |
| Scoring.WorstCaseIsBounded | src/ascend_kernel_lab/domain/scoring.py:68-88 | The minimum stays above initial times the product of (1 - tolerance), a positive bound, while all tolerances are below one |
| Scoring.NewBestIsAcyclic | src/ascend_kernel_lab/domain/scoring.py:68-88 | The start of a chain of NEW_BEST steps is never NEW_BEST against its end |
| Scoring.OnlineRunImproves | src/ascend_kernel_lab/orchestration/controller.py:930-945 | Both bounds along every online run |
| Scoring.NothingLaterBeatsFinalBest | src/ascend_kernel_lab/orchestration/controller.py:930-945 | No candidate considered after the final BEST is NEW_BEST against it; there is a BEST as soon as one candidate is publicly valid |
| ModelResponses.ValidateModelResponse | src/ascend_kernel_lab/llm/response.py:119-221 | The checks in the source's order, with the loop that sets extra content aside, decide as the specification does |
| ModelResponses.CollectRawContent | src/ascend_kernel_lab/llm/response.py:196-207 | The loop keeps preserved content and adds every top-level field no response field holds |
| ModelResponses.ResponseRoundTrip | src/ascend_kernel_lab/llm/response.py:49-74 | For every response accepted in either mode, validating its print with legacy reading gives it back; without legacy reading too when it is of the current schema |
| ModelResponses.LegacyPrintsOriginal | src/ascend_kernel_lab/llm/response.py:51-62 | A historical document prints back exactly as it was |
| ModelResponses.NoFieldIsLost | src/ascend_kernel_lab/llm/response.py:196-207 | Every top-level field of the original but raw_optional_content survives; an entry inside that one survives iff no stray field of its name carries another value |
| ModelResponses.PrintingIsInjective | src/ascend_kernel_lab/llm/response.py:49-74 | Responses accepted alike that print alike are equal |
| ModelResponses.CompleteModelResponse | src/ascend_kernel_lab/llm/response.py:235-282 | At most 1 + retries requests; the first valid reply wins and nothing is asked after it; each retry carries the error and reply before it; exhausted iff every reply is rejected; another exception iff some reply within the bound escapes after rejected ones only; no answer iff some request within the bound gets none after rejected replies only |
| ModelResponses.EscapeIsExact | src/ascend_kernel_lab/llm/response.py:140-176 | A reply raises something that is no response error iff it finished normally and the JSON parser gives up other than on syntax, or it has the required fields and its first failing check is a status that is a list or object, or a code with a lone surrogate |
| ModelResponses.EscapingReplies | src/ascend_kernel_lab/llm/response.py:163-176 | A concrete reply for a list status, an object status, a code with a lone surrogate and a parser that gives up; a gateway that gives any of them escapes at the first attempt |
| ModelResponses.LiveResponsesAreCurrent | src/ascend_kernel_lab/llm/response.py:224-232 | A response from a live completion is never a legacy one and reads back from its print |
| Utf8.TextRoundTrip | src/ascend_kernel_lab/llm/safety.py:36-43 | Decoding that ignores errors undoes encoding (section 3 of RFC 3629) |
| Utf8.TruncationKeepsLongestPrefix | src/ascend_kernel_lab/llm/safety.py:33-43 | Identity when the text fits; otherwise, above 14 bytes, exactly the longest prefix of whole characters that fits in the limit minus 14, then the marker |
| Utf8.TruncationIsBounded | src/ascend_kernel_lab/llm/safety.py:33-43 | The result encodes to at most the limit, and is empty below zero |
| Trajectory.BranchesComputePlan | src/ascend_kernel_lab/orchestration/controller.py:477-495 | The loop's branches and counters compute the closed form of the plan |
| Trajectory.TrajectoryShape | src/ascend_kernel_lab/orchestration/controller.py:464-507 | Rounds up to and including the first ready one repair; a later one optimizes iff its predecessor was ready; the index counts rounds of its kind and is at least 1; attempts are positive iff the round repairs an optimization |
| Trajectory.PhaseOccurrences | src/ascend_kernel_lab/orchestration/controller.py:509-525 | How often repair and optimization occur among the first rounds |
| Trajectory.FirstRoundRepairs | src/ascend_kernel_lab/orchestration/controller.py:477-480 | The first round repairs, so N rounds never hold N optimization rounds |
| Trajectory.TrajectoryPhaseCounts | src/ascend_kernel_lab/verification.py:74-84 | The counting loop: unknown iff an artifact has no phase, otherwise the exact counts |
| Trajectory.VerifierAcceptsIffNoRepairBudget | src/ascend_kernel_lab/verification.py:364-447 | Both round-count tests accept every full-length run as the controller records it iff maximum_repair_rounds is 0 |
| Controller.RunArtifacts.Put | src/ascend_kernel_lab/orchestration/controller.py:306-323 | Create if absent, accept the same content, refuse other content |
| Controller.ExperimentController.Persist | src/ascend_kernel_lab/storage/database.py:386-428 | One transaction or none of it: the process may die before the commit |
| Controller.ExperimentController.CommitRound | src/ascend_kernel_lab/orchestration/controller.py:306-343 | A file already committed is confirmed without change; a new one keeps the invariant; only a crash can prevent it |
| Controller.ExperimentController.BestContext | src/ascend_kernel_lab/orchestration/controller.py:918-947 | The incumbent before the round under way: the stored selection if it is from an earlier round, otherwise the replay over earlier scores |
| Controller.ExperimentController.CommittedOnlineBest | src/ascend_kernel_lab/orchestration/controller.py:965-1024 | The replay of committed feedback yields the stored row of the incumbent and the last committed round; its guards never fire |
| Controller.ExperimentController.ReconcileCommittedOnlineBest | src/ascend_kernel_lab/orchestration/controller.py:1026-1059 | Writes nothing in any reachable state; before the final selection it returns the incumbent's row |
| Controller.ExperimentController.BuildPrompt | src/ascend_kernel_lab/orchestration/controller.py:1273-1552 | The prompt is a function of the round and everything committed before it, so a recommit after a crash is identical |
| Controller.ExperimentController.OpenRound | src/ascend_kernel_lab/orchestration/controller.py:1751-1793 | Creates, prompts and requests from any point; leaves a round that is past the request alone; the states entered and the states left up to the response always make the same path |
| Controller.ExperimentController.MaterializeExchange | src/ascend_kernel_lab/orchestration/controller.py:1574-1624 | The response file becomes the committed exchange, and no other file of the round changes; only a crash prevents it |
| Controller.ExperimentController.MaterializeFailure | src/ascend_kernel_lab/orchestration/controller.py:1626-1697 | The failure record and the stand-in response are completed from any point, and no other file of the round changes |
| Controller.ExperimentController.ObtainResponse | src/ascend_kernel_lab/orchestration/controller.py:1795-1870 | Response file, else exchange, else failed exchange, else the provider, with the files of the round afterwards in each case; once any of the three is committed only a crash can prevent it and the provider has no say; otherwise the committed exchange is the first valid reply, or every reply was rejected |
| Controller.ExperimentController.CallModel | src/ascend_kernel_lab/orchestration/controller.py:1700-1739 | A new exchange is committed in front of the files made from it, and only for the first valid reply; a failed one only when all replies within the bound were rejected; nothing is written when, after rejected replies only, one is missing, raises another exception or cannot be stored |
| Controller.ExperimentController.CommitCandidate | src/ascend_kernel_lab/orchestration/controller.py:1871-1893 | Candidate file and row from the committed response; a finished round's files stay as they are |
| Controller.ExperimentController.ObtainEvaluation | src/ascend_kernel_lab/orchestration/controller.py:1894-2095 | A committed evaluation is kept, agrees with the replayed plan and identity, and leaves only a crash to prevent the score; without one, the evaluation is the backend's report for the incumbent of the finished rounds; when the backend has none, nothing is written |
| Controller.ExperimentController.EnsureFeedback | src/ascend_kernel_lab/orchestration/controller.py:2236-2322 | From any point the feedback ends committed and consistent with BEST; committed feedback is never rewritten |
| Controller.ExperimentController.RecordStages | src/ascend_kernel_lab/orchestration/controller.py:2192-2215 | The round's path in the event log grows by exactly the stages that ran and were not entered; by a prefix of them when the process dies |
| Controller.ExperimentController.ReachFeedback | src/ascend_kernel_lab/orchestration/controller.py:2205-2226 | The path grows by the missing stages and FEEDBACK_COMMITTED, by a prefix when the process dies; evaluation and task state stay |
| Controller.ExperimentController.AdvanceRoundEvaluation | src/ascend_kernel_lab/orchestration/controller.py:2161-2234 | The path in the event log grows by exactly Remaining(state, outcome), by a prefix when the process dies; refused iff there is no Remaining, which is the stuck state, then changing nothing; a finished round's files and rows stay as they are |
| Controller.ExperimentController.ReachEvaluation | src/ascend_kernel_lab/orchestration/controller.py:1741-2095 | From any point up to the evaluation: the states entered and left to enter make the same path throughout; a committed evaluation is kept and then only a crash stops it |
| Controller.ExperimentController.RunRound | src/ascend_kernel_lab/orchestration/controller.py:1741-2096 | From every crash point of a round: finished, or died, or provider or backend without an answer, or stuck; the states entered are exactly those left on the round's path, or a prefix; a committed evaluation is kept and leaves no room for a missing answer; stuck is absorbing |
| Controller.ExperimentController.RunAndJudge | src/ascend_kernel_lab/orchestration/controller.py:496-506 | No round is opened after one that requires an infrastructure retry, and a last round that requires one stays so |
| Controller.ExperimentController.RunRounds | src/ascend_kernel_lab/orchestration/controller.py:464-507 | The loop from round one over any durable state ends with all rounds finished, and hands every round the plan of the closed form |
| Controller.ExperimentController.TrajectoryCounts | src/ascend_kernel_lab/orchestration/controller.py:509-525 | The counts of the final result are the exact occurrences of the phases |
| Controller.ExperimentController.GateCandidate | src/ascend_kernel_lab/orchestration/controller.py:2416-2503 | Hidden evaluation of the selected candidate, its flag in the score table, the recomputed result, and the terminal state; resumable anywhere |
| Controller.ExperimentController.Conclude | src/ascend_kernel_lab/orchestration/controller.py:2503-2538 | The final transitions from wherever they stopped end in the terminal state the result calls for |
| Controller.ExperimentController.RunFinal | src/ascend_kernel_lab/orchestration/controller.py:2340-2539 | Ends in a terminal task whose stored result is the returned one; the only refusal is the missing hidden seed |
| Controller.ExperimentController.RunTask | src/ascend_kernel_lab/orchestration/controller.py:446-507 | Over any durable state a run can leave: ends terminal with its result, or stops for a crash, a missing answer, or one of three refusals (stuck round, infrastructure retry, missing seed), each with the durable facts that cause it; from a stuck last round, or one whose committed evaluation requires a retry, it never ends and leaves it so |
| Controller.ExperimentController.Supervise | src/ascend_kernel_lab/orchestration/controller.py:409-444 | The same for any number of crashes and resumes with different answers each time; a stuck task, or one whose last round requires a retry, never ends |
| ControllerSteps.CommitStep | src/ascend_kernel_lab/orchestration/controller.py:306-343 | Every new file of the current round keeps the invariant |
| ControllerSteps.MoveCurrent | src/ascend_kernel_lab/orchestration/controller.py:2205-2227 | Every transition of the current round succeeds with its expected version and keeps the invariant |
| ControllerSteps.SetBestStep | src/ascend_kernel_lab/orchestration/controller.py:2284-2293 | Selecting the current candidate keeps the invariant before its feedback exists |
| ControllerSteps.FinishStep | src/ascend_kernel_lab/orchestration/controller.py:2227-2234 | Finishing a round moves it into the past and BEST to the incumbent after it |
| ControllerTask.ListingIsByRound | src/ascend_kernel_lab/orchestration/controller.py:929-937 | One score row per scored round, in round order: the sorted list has no ties |
| ControllerTask.SomeBestOrNone | src/ascend_kernel_lab/orchestration/controller.py:938-947 | Both replays have an incumbent as soon as one candidate is eligible |
| ControllerTask.CommittedFeedback | src/ascend_kernel_lab/orchestration/controller.py:984-1009 | Every committed feedback, written directly or after a crash, names the incumbent after its round |
| ControllerFacts.SyntheticIsReadable | src/ascend_kernel_lab/orchestration/controller.py:1671-1690 | The stand-in response passes the historical validation for every round |
| ControllerTheorems.BestIsLastFeedbackOrInFlight | src/ascend_kernel_lab/orchestration/controller.py:1026-1059 | BEST is best_after of the last committed feedback, or the candidate of the single next round, scored and selected but without feedback |
| ControllerTheorems.BestIsPubliclyValid | src/ascend_kernel_lab/storage/state_store.py:803-874 | A selected BEST always has a stored, publicly valid score |
| ControllerTheorems.FinalSelectionIsLastFeedback | src/ascend_kernel_lab/orchestration/controller.py:2368-2378 | After the search, BEST and the result's candidate are exactly the last feedback's best_after |
| ControllerTheorems.RoundRecoveryIsExact | src/ascend_kernel_lab/orchestration/controller.py:2172-2234 | Cut the path of a committed evaluation anywhere: Remaining, which the controller follows, is the rest of it, along legal edges to ROUND_FINISHED, iff the cut is not PROFILE_FINISHED behind a failed benchmark; there it is refused |
| ControllerTheorems.RefusedIffStuck | src/ascend_kernel_lab/orchestration/controller.py:2192-2201 | In every reachable state the guard fires iff the round is stuck |
| StrandedRun.StuckIsReachable | src/ascend_kernel_lab/orchestration/controller.py:2205-2217 | A concrete run of 18 durable writes from empty tables and files, every one of which succeeds, ends in a reachable stuck state |
| DecisionRecovery.PastAreRecords | src/ascend_kernel_lab/orchestration/controller.py:1902-2095 | In every reachable state each finished round's record has a readable response, that response's code as its candidate, the plan its predecessors call for, and direct or recovered feedback |
| DecisionRecovery.PairedDecisionIsRecovered | src/ascend_kernel_lab/orchestration/controller.py:173-193 | If the round was measured in pairs, the recovered feedback has the same comparison and the same best_after; only best_before can differ |
| DecisionRecovery.DecisionRecoveryIsExact | src/ascend_kernel_lab/orchestration/controller.py:156-193 | The recovered comparison is the uninterrupted one iff the round was measured in pairs or the score compares alike to both incumbents; the decision iff it was measured in pairs or the score alone also selects |
| DecisionRecovery.BestBeforeRecoveryIsExact | src/ascend_kernel_lab/orchestration/controller.py:918-947 | The recovered best_before is the uninterrupted one iff every finished round on which the online decision and the score-only replay part has a later round both select |
| DecisionRecovery.FeedbackRecoveryIsExact | src/ascend_kernel_lab/orchestration/controller.py:2254-2321 | So is the whole recovered feedback |
| DecisionRecovery.ReachableRecoveryIsExact | src/ascend_kernel_lab/orchestration/controller.py:2254-2321 | In particular in every reachable state with a selected evaluation in flight |
| DecisionRecovery.FirstPartingIsPaired | src/ascend_kernel_lab/orchestration/controller.py:938-947 | The first round they part on was measured in pairs, with the same incumbent before it |
| DecisionRecovery.UnpairedRunsAgree | src/ascend_kernel_lab/orchestration/controller.py:921-947 | Without paired measurements both replays have the same incumbent |
| DecisionRecovery.BestIsFoldOfScores | src/ascend_kernel_lab/orchestration/controller.py:938-947 | Then in every reachable state BEST is the fold of compare_public_candidate over the scores with committed feedback, with or without the round in flight |
| DecisionRecovery.FeedbackIsDetermined | src/ascend_kernel_lab/orchestration/controller.py:2254-2321 | Then two runs with the same evaluations have the same feedback and incumbents, wherever either crashed |
| DecisionRecovery.RecoveryCanMisreport | src/ascend_kernel_lab/orchestration/controller.py:156-193 | A run measured in pairs from the second round on, made of records as the invariant has them, whose recovered feedback differs in best_before alone |
| DecisionRecovery.MixedMeasurementsCanMisreport | src/ascend_kernel_lab/orchestration/controller.py:156-193 | With a backend that measures only some rounds in pairs: recovered feedback that reports REGRESSION for the candidate it selects |
| ControllerTheorems.CommittedPlansReplay | src/ascend_kernel_lab/orchestration/controller.py:1902-1911 | Every committed evaluation carries the plan recomputed from the outcomes before it; no round follows one that requires a retry |
| ControllerTheorems.TerminalStateAgreesWithResult | src/ascend_kernel_lab/orchestration/controller.py:2345-2360 | Terminal task: finished iff the stored result passed, failed iff it did not; no valid candidate iff no incumbent |
| ControllerTheorems.ResultIsRecomputed | src/ascend_kernel_lab/orchestration/controller.py:2434-2502 | A stored result equals what a resumed run computes again, so the conflict guard never fires |
| ControllerTheorems.FinishedMeansFinallyValid | src/ascend_kernel_lab/orchestration/controller.py:2466-2475 | A finished task's BEST is publicly valid and passed the hidden test in the score table |
| ControllerTheorems.ExchangeRebuildsResponse | src/ascend_kernel_lab/orchestration/controller.py:1798-1816 | A committed exchange reads as one response that prints as the exchange, the same as any response file and candidate; there is no failure beside it |
| SourceGuard.ReachableFrom | src/ascend_kernel_lab/evaluation/source_guard.py:551-561 | The worklist terminates on every call graph, cycles included, with exactly the functions a call path from the entry leads to |
| SourceGuard.CheckLaunchAndOutputs | src/ascend_kernel_lab/evaluation/source_guard.py:546-583 | The launch flag holds iff some reachable function launches; the findings iff none allocates, or the entry returns nothing |
| SourceGuard.UnreachableFunctionsDoNotCount | src/ascend_kernel_lab/evaluation/source_guard.py:551-561 | What an unreachable function does has no influence |
| Percentile.PercentileIgnoresOrder | src/ascend_kernel_lab/evaluation/benchmark.py:10-23 | Percentile and median do not depend on the order of the samples |
| Percentile.AtIsBetween | src/ascend_kernel_lab/evaluation/benchmark.py:18-23 | The value lies between the neighbouring order statistics |
| Percentile.PercentileIsMonotone | src/ascend_kernel_lab/evaluation/benchmark.py:10-23 | A larger probability never gives a smaller percentile |
| Percentile.HalfIsMedian | src/ascend_kernel_lab/evaluation/benchmark.py:41-58 | The percentile at one half is the median |
| Percentile.SummaryIsOrdered | src/ascend_kernel_lab/evaluation/benchmark.py:41-58 | p20 <= median <= p80 |

## Left out

- SQL text and SQLite itself: each immediate transaction is one atomic step; savepoints are modelled for nesting alone.
- File system detail (fsync, links, permissions, symlinks, locks): a put is one step on a map from paths to contents.
- The model provider, the evaluation backend and the worker processes are arbitrary functions; a failing call ends the run without a write.
- Lease tokens are assumed fresh and digests injective; serialisation is canonical, so equal documents are equal texts.
- Metrics, clocks and durations are real numbers: float rounding, NaN and overflow are not modelled.
- Text is a sequence of scalar values; a JSON text with a lone surrogate is a value of its own, but object keys with one are not modelled. Limits of the interpreter (recursion depth, digits of an integer) count as the parser giving up.
- The well-formedness of a stage result, which also reads evidence files, is an arbitrary predicate on the row.
- Prompt, feedback and report wording: a prompt is modelled as what it is computed from, a feedback by its comparison and the incumbents before and after.
- raw_response, model_request_started and candidate bookkeeping files, which are functions of what is modelled.
- Controller.ExperimentController.CommitRound: the artifact registration rows behind the files, with the harness commit in their metadata (`src/ascend_kernel_lab/orchestration/controller.py:306-323`, `src/ascend_kernel_lab/storage/state_store.py:947-1018`), are not modelled, nor is the refusal of other metadata.
- Controller.ExperimentController.RunRound: so every run is one of the same harness commit; a resume under another is refused by `initialize` already, whose manifest holds the commit (`src/ascend_kernel_lab/orchestration/controller.py:348-398`), and by the registration rows if that is bypassed.
- Feedback and evaluations of older formats, without best_after or a phase.
- Evaluation reuse, search-profile budgeting and hidden-case generation are part of the arbitrary backend.
- Experiment rows, several tasks at once and the thread pool: a task's rows and files are its own.
- select_and_set_best_candidate, rank_candidates and rewards, which the controller does not use to decide.
- AST visiting, redaction patterns and the other findings of the source guard: the model starts from the facts per function.
- ModelResponses.CompleteModelResponse: lower-casing of finish reasons is modelled for ASCII letters only.
- Utf8.TruncationKeepsLongestPrefix: lone surrogates, which Python text may hold and cannot encode, are not modelled.
- StateStore.SQLiteStateStore.ListCandidateScores: the tie-break by candidate id is not stated; a round registers one candidate, so no ties occur.
- Controller.ExperimentController.BuildPrompt: equal inputs give equal prompts; that different inputs give different text is not claimed.
