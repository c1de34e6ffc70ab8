# A verified model of the harness runtime

The harness keeps one agent conversation consistent while users, background jobs, a "computer" app, cancels and
restarts all act on it. This project models the parts that carry that guarantee, in Dafny 4.11, and proves what they
promise for every input, every event sequence or every interleaving. `dafny verify dfyconfig.toml` checks all of it.

Code that changes things step by step is modelled by classes and methods (`SSEEventPublisher`, `ExecutionState`,
`ChatMessages`, `Checkpointer`, `Process`, `PendingRequest`, `Throttle`, `SessionState`, `StateGraph`, and the loops of
`Sanitize`, `Build`, `BuildResumeInput`, `AfterModelRetry`). Each method is proved to do exactly what a specification
function says, and the lemmas are about those functions, so they are about the methods. What those functions are built
from is in turn pinned by lemmas that name the data alone (the `...Iff` and `...Meaning` lemmas below).

| file | what it models |
|---|---|
| `Sessions`, `Slots`, `SessionTasks`, `WakeChain`, `Notices`, `UncheckedTurns` | turns, notices, wake-up runs and cancels around one lock and one task slot, as a state machine over the uninterrupted stretches of the event loop's tasks |
| `RunHistory`, `AskedQuestions` | what that machine's state says of the run that led to it: the open question, deliveries, checks and places, told from the labels; and runs through an open question or a late report |
| `WakeCheck` | the executor's wake check against what a wake-up run would deliver |
| `ChatStore`, `StoppedTurn`, `ChatTable` | the chat table: batches, stamps, and the closing of a stopped turn's calls |
| `ComputerReports`, `BackgroundJobs` | the two delivery ledgers of the agent |
| `Publisher`, `StreamProtocol` | the stream a turn writes, a client that knows only the protocol, and that protocol said of frames and calls alone |
| `Handlers`, `Execution`, `Turns`, `TurnStream`, `LiveClients` | the event handlers, a whole turn, and what its clients see, live or from the whole stream |
| `EventHistory`, `ToldTurns` | what a turn publishes and what its clients are told, defined from its events alone, without the handlers' state |
| `Sanitizer`, `Resume` | the two repairs that pair tool calls with results before a model call or a resume |
| `AgentLoop` | the two hooks that send an agent back to its model |
| `Acrylic`, `AcrylicRuns`, `AcrylicBudget` | the compiler from an edge list to a graph with prep nodes, budget nodes and routers |
| `Checkpoints`, `PendingRestore` | rewinding a thread by forking a checkpoint, and the requests that do it, which may overlap |
| `WorkspaceReports` | the throttled report that the workspace changed |
| `Common`, `Iteration`, `CountedRuns` | sequences, stuttering simulation, and a bound on runs that pay to revisit |

Where the obvious claim is false, the code is kept as it is, and the model says when it does hold:

- A session need not come to rest. A wake run that returns from a graph error before its first model call counts as
  clean, so it is scheduled again at once, although the comment at api/routers/sessions.py:341-343 says a failed run is
  not repeated: the executor turns the error into a return (core/execution/executor.py:790-804). `FailingWakesNeverEnd`
  builds any number of such runs from one report; `StepsAreBounded` counts what they cost in any run, and
  `SessionComesToRestIff` says a session comes to rest exactly when they are bounded.
- A notice need not be followed by a check. It is exactly when no task is current, some wake is still to check, or the
  current task's end will schedule one (`NoticeIsHeardIff`, `LateNoticeIsMissed`).
- A cancel can leave an ended turn unchecked. `CancelIsHarmlessIff` gives the exact condition in every reachable state,
  whatever was cancelled before: it leaves none unchecked when it hits a started turn or a wake past its check, when
  another wake checks after every other turn still to end, or when there is no such turn and none is unchecked. The wake
  a lone turn schedules, and a second message's turn queued behind a running one, are cancels that fail it
  (`UncheckedTurnIsReached`, `QueuedTurnIsReached`, `CancelLeavesTurnUnchecked`).
- A process can rewind its thread twice: `apply_pending_agent_restore` reads its flag, waits for the checkpointer and
  only then sets the flag (core/restore/pending.py:50-58), so requests that overlap can all rewind
  (`TwoRequestsRewind`). It rewinds once exactly when no other request that finds the checkpoint enters during a
  rewinding one (`OneRewindIff`).
- A turn can publish no result, one, two or three: none when it never starts, two when it is cancelled while its graph
  runs, three when it is cancelled after its answer (`OneResultIff`, `TurnResultIsItsText`).
- Not every turn has said everything before its terminal lifecycle event, although core/publishers/event_publisher.py
  says the order holds for all: exactly those that stop on an event, end undisturbed or fail in the graph have
  (`ResultsComeFirstIff`, `LiveClientGets`).
- The last write of a turn can go unreported, although core/waypoint_reports/workspace.py:23-24 says it never does: a turn
  that fails, or is cancelled before its stream ends, does not flush (`LastWriteIsReportedIff`).
- The new tool messages looked at for workspace writes are cut from a filtered list by an unfiltered count, so a
  delivered report can hide a write (`CutIsNewIff`, `HiddenReportDropsAWrite`, `WriteIsCoveredIff`).
- A plain answer can miss its question, when the question is gone from the last of three reads (`BuildResumeInput`,
  `AnswerCanMissItsQuestion`).
- A delivered computer report lets the todo reminder fire again, although core/middleware/todos.py:21 says at most once
  per run; at most once holds exactly for runs without such reports (`OneReminderIff`).
- A text block can reuse the index of a block of the same message (`TextReusesAnIndexIffMessageIsOpen`,
  `TextAfterAssistantReusesAnIndex`).
- A stopped turn's call stays open when its result's message id is already taken, as it is when a later turn uses a
  call id again (`EveryCallIsClosedIff`, `ReusedCallStaysOpen`).
- A restore does not bring back an open question (`RestoreCanBeUndone`).

tests/test_checkpoint_restore.py and tests/test_hybrid_topology.py describe older code; the model follows the code.

## Model

| member | source | states |
|---|---|---|
| Sessions.StepKeepsInv | api/routers/sessions.py:185-345 | every request and every stretch of every task keeps the protocol's invariant: one lock holder, which is the only task that checks or runs; a wake past its check has no question open and something to tell |
| Sessions.RunsKeepInv | api/routers/sessions.py:185-577 | so does every interleaving of messages, notices, arrivals, cancels and task steps |
| Sessions.AtMostOneRun | api/routers/sessions.py:205-228 | in every reachable state at most one run is in progress |
| Sessions.WakeStartsOnIdleGraph | api/routers/sessions.py:288-319 | a wake run starts only with no question open, something undelivered and no other run; what is open and undelivered is told from the run by the five rows of RunHistory |
| Sessions.OnlyTurnsChangeAnOpenQuestion | core/execution/executor.py:241-278 | the only steps that change an open question are the end or the cancel of a user turn's run |
| Sessions.WithoutTurnsTheQuestionStays | api/routers/sessions.py:476-543 | no sequence of notices, reports, job completions, cancels and wakes answers or drops an open question |
| RunHistory.QuestionIsTheLatestRuns | core/execution/executor.py:241-278 | after any run the open question is the one its latest returned, raised or interrupted run of the graph left, and the first one if no run has ended |
| RunHistory.ItemsAreDelivered | core/middleware/computer_reports.py:138-148 | an item is delivered exactly when a model call came after its arrival |
| RunHistory.ChecksAnswerTheRun | api/routers/sessions.py:288-306 | a check answers yes exactly when it could be made, no question was open and something had arrived that no model call had delivered; its task decides by that answer |
| RunHistory.PlaceIsTheLatestSteps | api/routers/sessions.py:205-345 | each task is where its latest step in the run took it, and has not started if it made none |
| RunHistory.TasksStartInOrder | api/routers/sessions.py:205-228 | tasks start in the order they were made |
| AskedQuestions.QuestionHoldsWakeBack | api/routers/sessions.py:288-306 | from a new session: a turn asks, a report arrives, the next wake's check answers no and the session rests with the report undelivered |
| AskedQuestions.AnswerLetsWakeRun | api/routers/sessions.py:288-319 | and its continuation: a turn answers, and the next check answers yes |
| AskedQuestions.LateReportIsDelivered | core/middleware/computer_reports.py:13-20 | a report that arrives in the middle of a run is read at its next model call |
| Slots.RunsKeepSlot | api/routers/sessions.py:253-285 | over every run whose cancels hit only started user turns and wakes past their check, the slot names the newest task while it lives, and nothing live is left behind an empty slot |
| Slots.NoEndedTurnGoesUnchecked | api/routers/sessions.py:270-277 | then `state.task` is the newest task unless it finished, and with no live current task after the first every task has finished, a check has been made and no user turn has ended since the latest one |
| Sessions.WhatIsLeftAtRest | api/routers/sessions.py:280-306 | an item still undelivered came after the latest check, or that check met an open question, could not be made, or led to a run |
| SessionTasks.SessionState.ScheduleWake | api/routers/sessions.py:280-285 | the object creates a wake task exactly when its current task is not live, as the state machine does |
| SessionTasks.SessionState.CreateTask | api/routers/sessions.py:545-550 | a new task is appended and becomes the current one |
| SessionTasks.SessionState.HandleMessage | api/routers/sessions.py:538-563 | a request is a notice, a turn or, for a new session with neither, a wake |
| SessionTasks.SessionState.EndCancelled | api/routers/sessions.py:236-277 | a cancelled task ends as the Interrupt step says, and one that never started runs no code |
| SessionTasks.SessionState.Cancel | api/routers/sessions.py:566-577 | a cancel marks the live current task, and says whether there was one |
| SessionTasks.SessionState.AcquireLock | api/routers/sessions.py:215-228 | taking the lock is the state machine's Acquire step |
| SessionTasks.SessionState.End | api/routers/sessions.py:253-277 | leaving the lock and the finally block together are the state machine's Finish |
| SessionTasks.SessionState.EndTurn | api/routers/sessions.py:270-277 | a user turn's end is its Exit step: only the current task clears the slot, and then a wake is scheduled |
| SessionTasks.SessionState.EndWake | api/routers/sessions.py:335-345 | a wake's end is its Exit step: the next wake is scheduled only after a run that returned |
| WakeChain.WakeRunsAreBounded | api/routers/sessions.py:288-345 | wake runs that commit their first before-model step are never more than the distinct reports and finished jobs delivered |
| WakeChain.StepsAreBounded | api/routers/sessions.py:280-345 | in every run, e requests and arrivals and q quiet failures of wake runs leave at most 12e + 6q steps of tasks, done or still to come |
| WakeChain.SessionComesToRestIff | api/routers/sessions.py:280-345 | runs with at most e requests and arrivals have bounded length exactly when their quiet failures are bounded |
| WakeChain.SomeTaskCanStep | api/routers/sessions.py:205-228 | no deadlock: while a task is live, the earliest live one can step, so a session at rest has none |
| Notices.CheckIsMadeIff | api/routers/sessions.py:280-345 | in every reachable state every run to rest without further cancels makes a check, exactly when some uncancelled wake is before its check or the current task's end will schedule one |
| Notices.NoticeIsHeardIff | api/routers/sessions.py:280-306 | so a notice is heard exactly when no task is current or such a check is coming |
| Notices.OnlyCheckedWakesMissNotices | api/routers/sessions.py:280-345 | while cancels hit only started turns and wakes past their check, a notice is missed exactly by a live wake that has checked; one whose run returned, uncancelled, is not among them, for it schedules the next |
| Notices.CheckIsMadeOrComing | api/routers/sessions.py:280-345 | over any run without cancels a check that is coming is made or is still coming |
| Notices.CanRestWithoutCheck | api/routers/sessions.py:319-345 | when no check is coming, some run without cancels comes to rest without one |
| Notices.LateNoticeIsMissed | api/routers/sessions.py:304-306 | a report and its notice between a false check and the wake's exit leave the session at rest, unchecked, with the report undelivered |
| Notices.FalseCheckIsReached | api/routers/sessions.py:304-306 | the state before such a notice is reachable |
| UncheckedTurns.NothingIsLeftUncheckedIff | api/routers/sessions.py:236-345 | in every reachable state, whatever was cancelled before: every run to rest without further cancels leaves no ended turn unchecked, exactly when some uncancelled wake checks after every turn still to end, or the current task's end will schedule a wake, or no turn is still to end and none is unchecked |
| UncheckedTurns.CancelIsHarmlessIff | api/routers/sessions.py:236-345 | so a cancel leaves no ended turn unchecked exactly when it hits a started turn or a wake past its check, or another wake checks after every other turn still to end, or no other turn is still to end and none is unchecked |
| UncheckedTurns.CancelLeavesTurnUnchecked | api/routers/sessions.py:236-345 | after any other cancel the lemma builds a run to rest with an ended turn unchecked |
| UncheckedTurns.UncheckedTurnIsReached | api/routers/sessions.py:270-277 | such a cancel is possible on the wake that a lone turn's end has scheduled |
| UncheckedTurns.QueuedTurnIsReached | api/routers/sessions.py:264-277 | and on a second message's turn before it starts, behind a running one |
| WakeChain.FailingWakesNeverEnd | core/execution/executor.py:790-804 | for every n, one report and one notice on an idle session are followed by n wake runs that each return from a graph error, with another about to start; they attain the six steps a quiet failure |
| WakeCheck.CheckPredictsDelivery | core/execution/executor.py:241-278 | the check answers yes exactly when no question is open and the first model call would give the agent at least one message |
| WakeCheck.CheckIff | core/execution/executor.py:241-278 | the check said of the rows and runs: not paused, and either a pending job that is gone, has an outcome, failed or was cancelled, or a report above the mark |
| WakeCheck.NothingIsLeft | core/execution/executor.py:258-275 | after that model call the check answers no on the same rows and runs |
| ChatStore.InsertAllAddsNewRows | core/persistence/message_writer.py:115-149 | a batch adds exactly the messages whose id is new to the table and to the batch, in order, each with its own position's sequence |
| ChatStore.WriteIsSound | core/persistence/message_writer.py:76-164 | any batch at any caller offset only appends rows, keeps sequences strictly increasing in insertion order and message ids unique |
| ChatStore.WriteAdds | core/persistence/message_writer.py:103-149 | every new row has a sequence above all earlier ones and carries its message, role, source and checkpoint |
| ChatStore.RolesAreStored | core/persistence/message_writer.py:31-37 | which role each kind of message is stored under, for a write to any table |
| ChatStore.ReplayInsertsNothing | core/persistence/message_writer.py:115-149 | replaying a batch of messages with ids, at any other offset, inserts nothing |
| ChatStore.IdsAreUnique | core/persistence/message_writer.py:123-123 | no two rows of a sound table share a message id |
| ChatStore.EveryRunIsSound | core/persistence/message_writer.py:76-297 | over any sequence of batches and stamps the table stays sound |
| ChatStore.RowsCarryTheirFirstStamp | core/persistence/message_writer.py:261-297 | each row carries the first stamp made after it was written, or none |
| ChatStore.StampsAreInOrder | core/persistence/message_writer.py:261-297 | read by sequence, stamps appear in the order they were made and unstamped rows are a suffix, for callers that pass no checkpoint with a batch |
| ChatStore.WriteKeepsUnstampedLastIff | core/persistence/message_writer.py:115-149 | a batch keeps unstamped rows a suffix exactly when it carries no checkpoint, adds no row, or finds every row stamped |
| ChatStore.AnExplicitCheckpointOvertakes | core/persistence/message_writer.py:133-138 | a caller that passes one breaks that order |
| ChatTable.ChatMessages.WriteChatMessages | core/persistence/message_writer.py:73-164 | the write appends exactly the specified rows and returns exactly the messages inserted |
| ChatTable.ChatMessages.InsertBatch | core/persistence/message_writer.py:115-156 | the insert loop skips messages whose id is present and numbers the others by their position |
| ChatTable.ChatMessages.StampCheckpointId | core/persistence/message_writer.py:277-290 | a stamp fills every missing checkpoint id and changes nothing else |
| ChatTable.ChatMessages.RecordStoppedSteps | core/persistence/message_writer.py:323-374 | closes the current turn's unanswered calls source by source and returns how many there were |
| ChatTable.UnansweredCalls | core/persistence/message_writer.py:305-320 | finds the turn's calls with an id and no result, in order, with their source and message |
| ChatTable.GroupBySource | core/persistence/message_writer.py:357-369 | groups the stopped results by source, keeping the order of sources and of calls |
| StoppedTurn.UnansweredIff | core/persistence/message_writer.py:305-320 | a call is unanswered exactly when it has an id, a row of the turn makes it with that source and message, and no tool result of the turn carries its id |
| StoppedTurn.CurrentTurnIff | core/persistence/message_writer.py:338-350 | the current turn is the rows above every user row that no sub-agent wrote |
| StoppedTurn.AnsweredCallsAreLeft | core/persistence/message_writer.py:305-371 | stopping adds no row for a call that the turn already answers |
| StoppedTurn.TurnAfterStop | core/persistence/message_writer.py:338-350 | stopping leaves the turn boundary where it was and only adds rows to the turn |
| StoppedTurn.StillUnanswered | core/persistence/message_writer.py:115-149 | a call is unanswered after stopping exactly when it was before and its stopped message's id was already taken |
| StoppedTurn.EveryCallIsClosedIff | core/persistence/message_writer.py:323-374 | re-reading the turn after stopping finds no unanswered call exactly when no unanswered call's stopped id was taken |
| StoppedTurn.ReusedCallStaysOpen | core/persistence/message_writer.py:323-374 | in any history, a call closed by a stop and used again by a later turn stays open when that turn is stopped |
| StoppedTurn.OneUnansweredCall | core/persistence/message_writer.py:305-320 | such a history exists: any call with an id can be the one unanswered call of a written table |
| StoppedTurn.StoppingTwiceWritesNothing | core/persistence/message_writer.py:323-374 | stopping again writes nothing, whatever the table holds |
| StoppedTurn.EachCallGetsItsOwnRow | core/persistence/message_writer.py:356-371 | each closed call has its stopped row: id `stopped-` and the call's id, the call's name, no text, marked stopped, with its own source, namespace and parent call |
| ComputerReports.NoticesExtendWhatWasSeen | core/middleware/computer_reports.py:61-78 | moving the mark past the notices read adds exactly their reports, in order |
| ComputerReports.ModelCallIsExact | core/middleware/computer_reports.py:138-148 | a model call gives the agent every report it lacks, in order, and leaves none unread |
| ComputerReports.DeliveryIsExact | core/middleware/computer_reports.py:61-148 | over any history of row writes, model calls and restores, the delivered reports are exactly the reports among rows up to the mark |
| ComputerReports.DeliveredIff | core/middleware/computer_reports.py:61-148 | said of the rows: a report is delivered exactly when a notification row at or below the mark has its sequence and its text |
| ComputerReports.ModelCallDeliversAll | core/middleware/computer_reports.py:138-148 | after any history a model call leaves the agent with the report of every notification row there is |
| ComputerReports.RestoreGoesBack | core/middleware/computer_reports.py:44-45 | and a restore takes it back to what an earlier operation left it with |
| ComputerReports.UnreadIff | core/middleware/computer_reports.py:61-78 | something is unread exactly when a notification row above the mark holds a report |
| ComputerReports.ReadUnread | core/middleware/computer_reports.py:61-78 | the loop over the rows finds exactly the unread reports and the last notice read |
| ComputerReports.NoReportTwice | core/middleware/computer_reports.py:138-148 | the delivered sequences strictly rise, so no report is delivered twice |
| BackgroundJobs.MergePendingJobs | core/middleware/background_jobs/middleware.py:38-53 | the reducer is union in order of first appearance, or removal |
| BackgroundJobs.StartedJobs | core/middleware/background_jobs/middleware.py:88-109 | the ids of the queued objects, each once, in the order they first appear |
| BackgroundJobs.StepMeaning | core/middleware/background_jobs/middleware.py:38-53 | parallel calls and subagents, nested to any depth, that echo the list add exactly what they started and keep it duplicate-free |
| BackgroundJobs.FinishedMeaning | core/middleware/background_jobs/middleware.py:227-230 | the finished jobs are exactly the pending ones that are finished |
| BackgroundJobs.FinishedJobsIff | core/middleware/background_jobs/middleware.py:227-230 | a pending job is finished exactly when its run is gone, has an outcome, failed or was cancelled |
| BackgroundJobs.FinishedInOrder | core/middleware/background_jobs/middleware.py:227-230 | and they keep the order in which they were started |
| BackgroundJobs.FindFinished | core/middleware/background_jobs/middleware.py:227-230 | the loop over the pending ids finds them |
| BackgroundJobs.ToolStepKeepsLedgerIff | core/middleware/background_jobs/middleware.py:38-53 | a tool step keeps pending equal to started minus reported exactly when it starts no job already reported |
| BackgroundJobs.ModelCallKeepsLedger | core/middleware/background_jobs/middleware.py:260-268 | a model call reports only finished jobs, each for the first time, and keeps the rest pending |
| BackgroundJobs.ModelCallReportsAll | core/middleware/background_jobs/middleware.py:227-268 | after any history a model call reports every pending job that is gone, has an outcome, failed or was cancelled, and leaves every other pending |
| BackgroundJobs.JobsAreReportedOnce | core/middleware/background_jobs/middleware.py:227-268 | over any history with fresh run ids, pending is started minus reported and no job is reported twice |
| Publisher.PublishKeepsCoherent | api/publisher.py:165-414 | every publisher call keeps the publisher and a client that knows only the protocol in agreement |
| Publisher.EveryStreamIsReadable | api/publisher.py:61-414 | the client accepts every stream any sequence of calls writes: one block open at a time, deltas and finishes match it, text lies in a started message, only a result or a close leaves a block open |
| Publisher.AcceptedStreamsAreNumbered | api/publisher.py:61-108 | in an accepted stream events are numbered 1, 2, 3, ... and nothing follows the sentinel |
| Publisher.TextReusesAnIndexIffMessageIsOpen | api/publisher.py:165-202 | new text reuses a block index of the current message exactly when the message is open and no block is |
| Publisher.TextAfterAssistantReusesAnIndex | api/publisher.py:165-272 | text, an assistant message and text again start two blocks with index 0 in one message |
| StreamProtocol.AcceptedIff | api/publisher.py:61-414 | a client accepts exactly the streams whose every frame has its place after those before it, said of the frames: numbers, one message and one block open at a time, deltas and finishes of the open block, step numbers, nothing after the sentinel |
| StreamProtocol.EveryFrameFits | api/publisher.py:61-414 | every frame that any sequence of calls writes has its place |
| StreamProtocol.OpenPartsIff | api/publisher.py:165-414 | until the close a client finds a message open exactly when text has been streamed since the last finished message or result, and a block exactly when no assistant message has come after that text either |
| StreamProtocol.ClientsAreToldAll | api/publisher.py:112-414 | clients are told everything the calls before the close say, in order: texts, tool calls of assistant messages, steps, asides and results |
| StreamProtocol.ToolBlocksAreWhole | api/publisher.py:229-272 | every tool call is announced right after its own block has been started and finished |
| Publisher.SSEEventPublisher.WriteFrame | api/publisher.py:68-86 | a write after closing is dropped |
| Publisher.SSEEventPublisher.ProtocolEvent | api/publisher.py:61-99 | an event takes the next number and is written |
| Publisher.SSEEventPublisher.PublishStreamEventText | api/publisher.py:165-202 | opens the message and the block when needed, then writes the delta |
| Publisher.SSEEventPublisher.PublishAssistant | api/publisher.py:204-272 | closes the open block, then writes each tool call as its own block |
| Publisher.SSEEventPublisher.PublishMessageFinish | api/publisher.py:336-360 | closes the block and the message that are open, and resets |
| Publisher.SSEEventPublisher.PublishResultFrame | api/publisher.py:365-414 | always finishes the message, records whether the user is awaited and writes the result |
| Publisher.SSEEventPublisher.PublishCheckpointStep | api/publisher.py:129-139 | a checkpoint event carries the next step number of the stream |
| Publisher.SSEEventPublisher.PublishOther | api/publisher.py:112-162 | events beside the message blocks take the next number and change nothing else |
| Publisher.SSEEventPublisher.CloseStream | api/publisher.py:101-108 | writes the sentinel once, and keeps the stream for the user when the last result was a question |
| Execution.ExecutionState.EndSubagent | core/execution/handlers/lifecycle_handler.py:91-117 | the end of a namespace pops its call and name, moves its output to the finals and publishes one result |
| Execution.ExecutionState.HandleLifecycle | core/execution/handlers/lifecycle_handler.py:26-119 | the coordinator's lifecycle path, keyed by the namespace in the event's data |
| Execution.ExecutionState.HandleSubagentLifecycle | core/execution/handlers/subagent_lifecycle_handler.py:32-97 | the second path onto the same maps, keyed by the event's own namespace |
| Execution.ExecutionState.HandleSubagentMessage | core/execution/handlers/subagent_message_handler.py:19-67 | publishes and accumulates text deltas of a known call; a tool call is only a note |
| Execution.ExecutionState.HandleRootMessage | core/execution/handlers/root_message_handler.py:21-71 | accumulates and publishes the coordinator's text, and announces its tool calls when the message finishes |
| Execution.ExecutionState.HandleTool | core/execution/handlers/root_tools_handler.py:27-66 | the coordinator's tool events by the default handler, a sub-agent's as notes |
| Execution.ExecutionState.HandleValues | core/execution/handlers/root_values_handler.py:82-195 | shows the messages when there are more than ever before and one is not hidden, a sub-agent's todo list when it changed, then the interrupt, and stops the turn only on an interrupt |
| Execution.ExecutionState.PublishInterrupt | core/execution/handlers/root_values_handler.py:197-226 | publishes the question's result with the text so far and clears that text |
| Execution.ExecutionState.ProcessEvent | core/execution/executor.py:443-516 | hands each event to the one handler for its method and namespace, and stops when that handler says so |
| Execution.ExecutionState.PublishEnd | core/execution/executor.py:749-804 | what a turn that no event stopped publishes last: an answer, a failure, a cancel, or a cancel after the answer |
| Execution.ExecutionState.PublishAnswer | core/execution/executor.py:522-566 | a drained turn closes its text and message and publishes its result |
| Execution.ExecutionState.PublishFailure | core/execution/executor.py:790-804 | a failed turn closes its message and publishes its error |
| Execution.ExecutionState.PublishCancelled | core/execution/executor.py:771-789 | a cancelled turn publishes a result here and another at api/routers/sessions.py:236-243 |
| Execution.ExecutionState.Execute | core/execution/executor.py:641-804 | the graph's events are handled one by one up to the one that stops the turn, then the end is published unless one did; held-back workspace changes are flushed exactly when an event stopped the turn or its stream ended |
| Execution.ExecutionState.RunTurn | api/routers/sessions.py:205-270 | a whole turn, with the ends that come before its graph runs; it closes the stream unless it never starts |
| Turns.SubagentResultsAreExact | core/execution/handlers/subagent_message_handler.py:29-67 | every sub-agent result carries exactly the concatenation of the deltas published for its call since its last result, or the placeholder |
| Turns.CallsAreOpen | core/execution/handlers/subagent_lifecycle_handler.py:42-97 | the recorded calls are those the event sequence has started and not ended, on either path |
| Turns.EndReportsItsCall | core/execution/handlers/lifecycle_handler.py:91-117 | an end event publishes one result, for the call its namespace has open, and nothing when it has none |
| Turns.ResultsHaveStarts | core/execution/handlers/lifecycle_handler.py:53-117 | a namespace never has more results than events that record its start, even when its end arrives on both paths; one it has open counts as a result to come |
| TurnStream.EventsAgree | core/execution/handlers/root_message_handler.py:37-71 | while a turn runs its text is the concatenation of all coordinator deltas, and the tool calls begun are those announced followed by those waiting, in order |
| TurnStream.TurnResultIsItsText | core/execution/executor.py:534-566 | the results of a turn for each of its ends; a successful one's text is all coordinator deltas, an interrupted one's too unless there were none |
| TurnStream.OneResultIff | core/execution/executor.py:749-789 | a turn publishes exactly one result unless it never starts, or is cancelled while its graph runs (two) or after its answer (three) |
| TurnStream.ShownIsRootIff | core/execution/handlers/subagent_tools_handler.py:28-39 | the text a client shows is the result's text exactly when no sub-agent left a note |
| TurnStream.TurnReachesItsClients | core/execution/executor.py:641-804 | a client reads the whole stream of any turn; it shows the turn's text and carries its results; it ends closed unless the turn never started, and is kept for the user exactly when the turn stopped on a question |
| EventHistory.LogIsWhatEventsSay | core/execution/executor.py:443-516 | the handlers publish exactly what each event, given the events before it, says, and the turn stops at the coordinator's first values event with an interrupt |
| EventHistory.StateHolds | core/execution/handlers/root_message_handler.py:21-71 | the handlers' state is what the events said: text, waiting calls, message count, todo lists and names |
| ToldTurns.ClientsAreToldTheTurn | core/execution/executor.py:641-804 | what a turn's clients are told is what its events and its end say, in order, for every turn |
| LiveClients.LiveClientGets | core/publishers/event_publisher.py:128-158 | a client that stops at the first terminal lifecycle event gets, for each end of a turn, exactly these results; a turn has such an event exactly when its graph runs |
| LiveClients.ResultsComeFirstIff | core/publishers/event_publisher.py:128-158 | a turn has said everything before its terminal event exactly when its graph runs and an event stops it, its stream ends undisturbed, or it fails |
| Sanitizer.Sanitize | core/middleware/structured_output/middleware.py:55-127 | returns one of the lists the code may build, the order in which calls are closed being free; each of its laws is stated below of the calls and ids of the messages |
| Sanitizer.EachCallAnsweredOnce | core/middleware/structured_output/middleware.py:55-127 | in a valid transcript each call with an id that an assistant message makes has exactly one result before the next turn |
| Sanitizer.NoStrayResult | core/middleware/structured_output/middleware.py:92-97 | and every result is for a call made earlier in its turn |
| Sanitizer.OutputAnswersEachCall | core/middleware/structured_output/middleware.py:55-127 | so for every list the sanitizer may return: each call of an assistant message, parallel ones too, has exactly one result in its turn, and no other result stands there |
| Sanitizer.FirstAnswerIff | core/middleware/structured_output/middleware.py:80-97 | a result is kept exactly when an assistant message earlier in its turn makes its call and no result before it has its id |
| Sanitizer.OutputIsValid | core/middleware/structured_output/middleware.py:55-127 | every list the sanitizer may return is a valid transcript |
| Sanitizer.OutputKeepsSurvivors | core/middleware/structured_output/middleware.py:60-115 | non-tool messages and first valid answers survive in order, and everything added is a closing result |
| Sanitizer.ClosersAddedMeaning | core/middleware/structured_output/middleware.py:60-115 | nothing that survives is lost, and what is added is results with the closing text |
| Sanitizer.ValidInputIsUnchanged | core/middleware/structured_output/middleware.py:55-127 | a valid transcript is returned as it is |
| Sanitizer.SanitizingTwiceChangesNothing | core/middleware/structured_output/middleware.py:55-127 | the sanitizer is idempotent |
| Resume.BuildResumeInput | core/execution/executor.py:309-437 | the loops yield the specified stream input for every outcome of the three checkpoint reads; a plain message becomes a resume exactly when it has text, the first read finds a question and the last has not lost it, and it then carries the newest user message's text |
| Resume.FindOrphans | core/execution/executor.py:372-409 | finds the unanswered calls that are not the question's own, in transcript order |
| Resume.OrphansIff | core/execution/executor.py:372-409 | a call is one of them exactly when it has an id, some message makes it, it is not the question's own and no result has its id |
| Resume.NewestUserTextIsTaken | core/execution/executor.py:186-209 | the text is that of the user's newest message; with no user message there is none (`NoUserNoText`) |
| Resume.FindLatestUserText | core/execution/executor.py:186-209 | the loop walks back from the end and stops at the first user message |
| Resume.JoinedIsSpaced | core/execution/executor.py:186-209 | of a list of blocks it holds the non-empty text blocks, in order, with one space between |
| Resume.StripMeaning | core/execution/executor.py:186-209 | stripping takes the spaces off both ends and nothing else, and leaves nothing exactly for blank text |
| Resume.AnswerCanMissItsQuestion | core/execution/executor.py:343-369 | an answer whose question only the last read misses becomes a turn of its own |
| Resume.DecisionsAnswerInOrder | core/execution/executor.py:415-432 | the i-th decision answers the i-th call that needs a result, an unknown decision uses up its call, and the results stand in that order with nothing between |
| Resume.InjectedResults | core/execution/executor.py:415-432 | injected results have distinct ids, each of a call the checkpoint leaves unanswered |
| Resume.NoCallGetsTwoResults | core/execution/executor.py:309-437 | with unique call ids no call has two results after resuming, and no answered call gets another |
| Resume.AskUserIsNeverInjected | core/execution/executor.py:398-409 | an `ask_user` call is never given a result |
| Resume.DistinctResultsIff | core/execution/executor.py:407-432 | injected ids are distinct for all decisions exactly when the calls needing a result have distinct ids |
| AgentLoop.AfterModelRetry | core/middleware/invalid_tool_calls.py:59-82 | walking back from the newest message computes the streak, and the replies answer each invalid call that has an id |
| AgentLoop.RetryIff | core/middleware/invalid_tool_calls.py:59-82 | there is a retry exactly when the newest message has no valid call and an invalid one with an id, and fewer than three invalid answers in a row end the transcript |
| AgentLoop.AfterModelTodos | core/middleware/todos.py:95-109 | the hook reminds exactly when the specification does |
| AgentLoop.RoundAdds | core/middleware/todos.py:148-159 | what each round adds to the transcript: retry replies, the reminder, tool results or the end |
| AgentLoop.RepliesAreResults | core/middleware/invalid_tool_calls.py:38-52 | there is a reply for an id exactly when an invalid call has it |
| AgentLoop.LoopIsBounded | core/middleware/invalid_tool_calls.py:59-82 | from any transcript, for any responses: reminders at most 1 + R, model calls at most 3(T + R + 2) + 2N, for T tool-calling responses, N rounds with notices, R of them with computer reports |
| AgentLoop.LoopWithoutNotices | core/middleware/todos.py:95-109 | with no notices: at most (T + 2)(MAX_RETRIES + 1) model calls and one reminder |
| AgentLoop.BoundIsReached | core/middleware/invalid_tool_calls.py:59-82 | that bound cannot be lowered: for every T some run makes exactly (T + 2)(MAX_RETRIES + 1) model calls |
| AgentLoop.EveryRoundIsACall | core/middleware/todos.py:148-159 | while the loop runs, each round is one model call, so the bound ends it |
| AgentLoop.ReportsRearmTheReminder | core/middleware/todos.py:105-105 | n computer reports allow n + 1 reminders, for every n |
| AgentLoop.OneReminderIff | core/middleware/todos.py:95-109 | at most one reminder in every run with R rounds with reports, exactly when R is 0 |
| Acrylic.Build | core/graph/topology/acrylic_topology.py:31-82 | the loops yield the specified graph, or the error of the first node that cannot be added, or of a definition without nodes |
| Acrylic.CompilesIff | core/graph/topology/acrylic_topology.py:62-71 | compilation succeeds exactly for at least one node and present, distinct, unreserved ids |
| Acrylic.ContainsMeaning | core/graph/topology/acrylic_topology.py:151-157 | the mention test is the substring test |
| Acrylic.NodeEdgesIff | core/graph/topology/acrylic_topology.py:216-248 | the edges out of a node are the plain edges declared from it, led to the end or to the prep node of their target |
| Acrylic.RouterDefault | core/graph/topology/acrylic_topology.py:179-235 | a router's default is that of the first conditional edge declared from its source |
| Acrylic.StateGraph.AddBudgetNodes | core/graph/topology/acrylic_topology.py:145-177 | one budget node, and its edge, for each charged target and no other |
| Acrylic.StateGraph.WireConditionalEdges | core/graph/topology/acrylic_topology.py:179-248 | one router a source with all its conditions in declaration order and the default of its first conditional edge, and one edge a plain edge |
| Acrylic.ChargedTargetsOf | core/graph/topology/acrylic_topology.py:149-157 | the test that adds budget nodes charges a target exactly when a condition of the edge is charged |
| Acrylic.EntriesFor | core/graph/topology/acrylic_topology.py:193-200 | the test of a list of conditions charges the same ones |
| Acrylic.AddEdgeToGroups | core/graph/topology/acrylic_topology.py:190-235 | so does the test of a lone condition; the entries join their source's group or start it |
| Acrylic.StateGraph.AddDefinitionNodes | core/graph/topology/acrylic_topology.py:61-67 | a prep node, a node and the edge between them for each id |
| AcrylicRuns.TargetsAreNodesIff | core/graph/topology/acrylic_topology.py:116-119 | every router and edge target is an added node or the end exactly when every target the definition uses is declared |
| AcrylicRuns.BudgetNodeIff | core/graph/topology/acrylic_topology.py:145-177 | a target has a budget node exactly when some conditional edge charges it: a condition that leads to it says so, or holds the text "retry_count" anywhere |
| AcrylicRuns.ChargedEntriesHaveBudgets | core/graph/topology/acrylic_topology.py:145-177 | a charged router entry always leads to a budget node that was added |
| AcrylicRuns.StepFollowsDefinition | core/graph/topology/acrylic_topology.py:250-274 | a prep, budget or init step keeps the pending visit; a node step makes the definition's own step, to its first true condition |
| AcrylicRuns.CompiledRunRefinesDefinition | core/graph/topology/acrylic_topology.py:31-274 | the node visits of any compiled run are exactly the first visits of the definition's own run, with the same states and counts |
| AcrylicRuns.DefinitionRunIsCompiled | core/graph/topology/acrylic_topology.py:31-274 | and every visit of the definition's run is made, within three steps a visit |
| AcrylicRuns.RetryCountIsChargesPaid | core/graph/topology/acrylic_topology.py:166-170 | the retry count is its start value plus the budget nodes run |
| AcrylicRuns.GuardsOnTheCountAreCharged | core/graph/topology/acrylic_topology.py:145-214 | a condition with the text "retry_count" at any place is charged and leads to a budget node that the other loop added, in both forms of edge |
| AcrylicBudget.CompiledRunIsBounded | core/graph/topology/acrylic_topology.py:145-274 | when every cycle takes a charged edge that needs the count below K, a run over N nodes from count zero makes at most (K + 1)N node visits |
| AcrylicBudget.CompiledRunEnds | core/graph/topology/acrylic_topology.py:145-274 | and it ends, within three steps a visit |
| Checkpoints.HistoryIsSafe | core/restore/checkpoint.py:37-105 | over any history of steps, pauses and restores parents are strictly older and no checkpoint changes |
| Checkpoints.LastOperation | core/restore/checkpoint.py:37-105 | what each operation of a history does: a step adds its row as head, a pause marks its row, a restore adds a copy of the target one step later as head or, without a target, nothing |
| Checkpoints.RestoreCanBeUndone | core/restore/checkpoint.py:37-105 | restoring the previous head later makes a head with its state and the next step, whatever happened since; an open question of its own is gone |
| Checkpoints.RestoreDropsTheQuestion | core/restore/checkpoint.py:76-105 | a paused head can be restored, and the new head has its values and no open question |
| Checkpoints.RestoredLineage | core/restore/checkpoint.py:93-100 | the restored head's ancestors are the target's; everything made after the target is out of its lineage |
| Checkpoints.ApplyCheckpointRestore | core/restore/checkpoint.py:12-105 | forks the target into a new head with no question open, or fails and changes nothing without a checkpointer or a target |
| Checkpoints.LoadTarget | core/restore/checkpoint.py:37-51 | reads the target, or fails without one |
| Checkpoints.WriteFork | core/restore/checkpoint.py:76-105 | writes the fork of what was read, whatever was written since |
| Checkpoints.ForkOfAnEarlierRead | core/restore/checkpoint.py:45-105 | a fork of an earlier read is the fork of the target as it is now |
| Checkpoints.Checkpointer.PutRow | core/restore/checkpoint.py:59-74 | writing an existing row leaves its parent alone and the thread's head where it was |
| PendingRestore.Process.EnterRequest | core/restore/pending.py:49-55 | a request goes on exactly when the flag is unset, there is a checkpointer and a checkpoint is pinned |
| PendingRestore.Process.LoadRequest | core/restore/pending.py:57-57 | it reads the pinned checkpoint of its thread, or fails and leaves the flag unset |
| PendingRestore.Process.FinishRequest | core/restore/pending.py:57-64 | it writes the fork and sets the flag, whatever the flag is by then |
| PendingRestore.EventShows | core/restore/pending.py:49-64 | what each event does to the flag, the requests and the threads: only a request that finds the flag unset, a checkpointer and a pin reads, and only one that finds the checkpoint writes |
| PendingRestore.EveryRewindMakesHead | core/restore/pending.py:41-64 | however requests and steps of the graph interleave, every rewind makes a head that forks the pinned checkpoint |
| PendingRestore.FinishersOverlap | core/restore/pending.py:50-58 | of two requests that rewind, one entered while the other was under way |
| PendingRestore.OneRewindIff | core/restore/pending.py:41-64 | over any interleaving whose requests have all ended there is exactly one rewind if and only if some request rewinds and no other that finds the checkpoint enters during one that does |
| PendingRestore.NoRewindIff | core/restore/pending.py:41-64 | and none if and only if no request finds the checkpoint |
| PendingRestore.TwoRequestsRewind | core/restore/pending.py:50-58 | two requests that overlap both rewind, and the thread ends on the second fork |
| PendingRestore.StepDuringRewind | core/restore/pending.py:57-64 | the graph may step between a request's read and its write, and the fork is still the head |
| PendingRestore.RestartIsIdempotent | core/restore/pending.py:18-21 | a restarted process makes another head equal to the first |
| WorkspaceReports.Throttle.NoteToolFinished | core/waypoint_reports/workspace.py:56-68 | a writing tool reports now or is remembered; any other tool changes nothing |
| WorkspaceReports.Throttle.NoteNewMessages | core/waypoint_reports/workspace.py:71-82 | one note for a list with a writing tool's message, none for any other |
| WorkspaceReports.Throttle.FlushWorkspaceChange | core/waypoint_reports/workspace.py:85-92 | reports exactly a change that was held back |
| WorkspaceReports.ReportIsSentIff | core/waypoint_reports/workspace.py:56-92 | a noted write is reported exactly when no report was sent in the two seconds before it, a flush reports exactly when a noted write went unreported and nothing has been reported since |
| WorkspaceReports.FlushCoversEveryWrite | core/waypoint_reports/workspace.py:85-92 | after a flush every write noted so far is covered by a report at or after it |
| WorkspaceReports.LastWriteIsReportedIff | core/execution/executor.py:727-747 | after a turn every write noted is certain to be covered by a report exactly when an event stopped the turn or its stream ended; a cancel before that or a failure can leave the last one unreported |
| WorkspaceReports.ReportsAreFew | core/waypoint_reports/workspace.py:56-92 | a span of D seconds with k flushes sends at most 1 + D/2 + k reports, whatever came before |
| WorkspaceReports.SessionsAreIndependent | core/waypoint_reports/workspace.py:51-53 | each session is throttled as if its calls were the only ones |
| WorkspaceReports.CutDropsByHiddenCount | core/execution/handlers/root_values_handler.py:134-187 | what is looked at is the new visible messages without as many of the first as there were hidden ones before them |
| WorkspaceReports.CutIsNewIff | core/execution/handlers/root_values_handler.py:187-187 | all new visible messages are looked at exactly when none before them was hidden or there are none |
| WorkspaceReports.HiddenReportDropsAWrite | core/execution/handlers/root_values_handler.py:134-187 | a delivered report before it drops a finished write_file |
| WorkspaceReports.WriteIsCoveredIff | core/execution/handlers/root_values_handler.py:125-187 | from the values event to the flush: a report at or after the event is certain exactly when a new visible message of a writing tool stands behind as many others as messages were hidden before |

## Left out

- Sessions: a restore drops the session object and its lock (api/routers/sessions.py:438), so two objects can act on one thread; the properties are per session object.
- Sessions: which publisher a queued turn captures, sentinel trimming, and a graph error raised outside the executor; the event loop starts tasks in creation order and its lock is first come, first served.
- Slots.NoEndedTurnGoesUnchecked: assumes that cancels hit started user turns or wakes past their check, because a task cancelled before it starts runs no finally block and a wake cancelled before its check makes none; `UncheckedTurns.CancelIsHarmlessIff` decides every other cancel.
- UncheckedTurns.CancelIsHarmlessIff: a cancelled task may be interrupted at any later step and not only at its next one, so a started turn that is itself being cancelled counts as one that may still end late.
- Sessions: the one `session.resume_payload` of a session, which the run that comes first consumes.
- ChatStore: rows that a restore elsewhere deletes from the table (core/persistence/message_writer.py:91-94); the table only grows here.
- Publisher: notice rows, which a publisher of their own writes to the same session's stream, numbered from 1 (api/routers/sessions.py:42).
- Two sessions' rows in one chat table, failures of the database, Redis and the HTTP posts; writes are atomic, and a failed write would leave the model's state unchanged.
- The content of messages: what a notice's JSON says is a parameter of ComputerReports, and the objects found in a tool's text are the input of BackgroundJobs.StartedJobs.
- The text of outcome messages, reminders and retry replies beyond the call they answer.
- Handlers: structured responses, files, the contents of todo lists and token usage carried by values events; tool handlers other than the default one; which message of a values event is written to which row.
- Execution: an exception in the middle of a handler, whose effects up to there would stay; a handler is one step.
- Execution: the checks for a stalled graph, reports of questions and replies to Waypoint, tracing and durations.
- Publisher: event ids, timestamps and the payloads of values events.
- Resume: entries of the message list that raise while they are read; the read then counts as failed.
- Sanitizer.Sanitize: a list in place of each dictionary's other keys; only role, call ids and text are kept.
- Acrylic: sources with several successors, which LangGraph runs in parallel; collisions between generated and declared node names; conditional edges without a "condition" or "target" key; what LangGraph itself validates when it compiles.
- AcrylicBudget: the recursion limit of the graph, which would stop a run earlier.
- AcrylicRuns: `retry_count` is assumed to be a declared field of the state schema (core/graph/topology/acrylic_topology.py:84-114), without which no node can count.
- Message isolation by prep nodes: it rests on the `messages` reducer, which is not part of this model; what a prep node does is a parameter.
- Checkpoints: subgraph namespaces, channel versions and the id generator; an id is assumed to be above all existing ones when it is written.
- PendingRestore: a failure of the fork's write, which would leave the flag unset as a failed read does; that the second rewind drops the first one's session object and lock (api/routers/sessions.py:493-495).
- AgentLoop: a jump back re-enters at the before-model hooks; errors and cancels inside the loop end it.
- Model factories, skill loading, the virtual file system, the computer proxy, authentication and all HTTP routes: single-branch logic or I/O.
