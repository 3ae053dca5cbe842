# Agent room: the durable execution engine and its protocols

A room lets several people give work to one agent.  Its host keeps a durable machine of messages
(queued, dispatching, running, completed, failed, interrupted, needs-review), a volatile coordinator
on top of it, and an agent that can answer "not sent" or "unknown".  This project models that engine
and the protocols around it, and proves what they are for, over every run and every crash.

`dafny verify dfyconfig.toml` checks everything.

## Reading order

| files | what they hold |
|---|---|
| `RoomStore.dfy`, `RoomStoreFacts.dfy`, `RoomTransitions.dfy` | the tables as one value, every repository transaction as a function on them (`Step`), and what each transaction keeps: the gapless log, row identities, the queue, the order of unfinished prompts |
| `DispatchJournal.dfy`, `RoomSafety.dfy` | the effects of a room (commits, with or without their answers, and agent calls) in order, the discipline a coordinator must follow (`Safe`), the durable invariant after every effect, and the theorems about whole runs |
| `RoomEnvironment.dfy`, `RoomMemory.dfy`, `RoomCoherence.dfy`, `RoomCoordinator.dfy`, `RoomRuns.dfy` | the store and the agent as classes that may fail at every call, the coordinator with all its handlers, coherence of memory and store, and `Live`: processes that start, serve anything, and die after any effect |
| `LostAnswers.dfy`, `StaleFault.dfy` | what a lost answer and a fault that outlives a recovery cost, and exactly when they cost nothing |
| `TaskRuns.dfy` | project tasks over message states |
| `RpcClient.dfy`, `JsonLength.dfy` | the pending calls of the agent connection, and the exact length of a request |
| `LiveProjection.dfy`, `ClientScreen.dfy`, `ProjectionMirror.dfy`, `EventHub.dfy`, `EventFrames.dfy`, `Replication.dfy`, `MissedEvents.dfy` | live output on the host and on a client, the bounded hub, replay and forwarding, the client's cursor, and exactly which events a connected client misses |
| `Planner.dfy`, `Workgroup.dfy`, `RemoteBroker.dfy` | planned collaboration, its execution, and remote workers on a lease |
| `Supervision.dfy`, `BoundedRing.dfy`, `PersonalBroker.dfy` | the succession of agent processes, the tail of their error output, and requests only the sender may answer |

How the main part fits together: a journal is `Safe` when each of its effects was allowed after the
effects before it.  The lemmas of `DispatchJournal` and `RoomSafety` speak about every safe journal,
and every prefix of a safe journal is safe, so they hold wherever a process dies.  The classes of
`RoomCoordinator` carry the other half: every handler, on every branch and whatever the store and the
agent answer, extends the journal safely.  Its memory stays in touch with the tables on every run
(`InTouch`), and in step with them (`InStep`) as long as no answer of the store was lost.  On every run its
queue is the stored one but for prompts that are stored, of which it was never told, and which no recovery
image has shown it since (`Overlooked`, `Aligned`).

Concurrent parts are methods that hold a lock for their whole length; a method named `Interleave`,
`Live` or `Step` runs them in any order with any input.

## Assumptions

- A transaction that reports an error left no trace, or was committed and only its answer was lost.  The
  journal records which, and any answer may be lost at any time.  The same holds for the events a client
  follows (`Replica.HostUnanswered`, `Replica.Restart`) and for the checkpoints of the agent's process
  (`Runtime.Store`).  Three results depend on answers, and say on which: that recovery hides no prompt's turn
  (the answers to stored frontiers), that no later prompt overtakes one (the answer to its own acceptance), and
  that a connected client misses no event (the answer to that event's own transaction).  For each of them
  there is a lemma or method that says exactly when it fails.
- The agent never reuses a turn id, begins nothing for a request it reports as not sent, and a history
  read names every turn begun so far.
- A recovery starts after the previous agent process has ended.
- Live output: the agent sends nothing for an item it has completed, and deltas are not empty.
  `ResetLeavesEmptyItems` says exactly what the second one is needed for.
- Digests are injective: equal digests stand for equal content.  Time is a natural number that does not decrease.
- The writer reports truthfully how many bytes it took; a report outside its range counts as the code counts it.

## Where the code does less than one might expect

- **A lost answer to `BeginPrivateTurn`** (`internal/room/questions.go:94-97`).  If the frontier is stored but
  its caller sees an error, the room stays ready; the next prompt is started behind a frontier nobody owns,
  and recovery then hides that prompt's turn.  `LostAnswers.SubmitAfterLostFrontier` follows the coordinator
  through it, `LostAnswers.LostAnswerHidesAPrompt` is a run in which nothing else is lost, and
  `LostAnswers.HidesNoPromptExactlyIfAnswered` is the exact condition: whether that one call was answered.
  No other lost answer hides a prompt (`RoomSafety.RecoveryHidesExactly`).
- **A lost answer to an acceptance** (`internal/room/coordinator.go:178-205`).  A prompt that is stored although
  its sender saw an error is unknown to the coordinator until the next recovery image, and a later prompt may be
  dispatched first.  The exact condition is the answer to its own acceptance (`LostAnswers.OvertakenExactlyIfLost`):
  if it was given, no later prompt is dispatched before it in any run, whatever other answers are lost
  (`LostAnswers.ToldIsNeverOvertaken`); if it was lost, then from whatever state the room is in some run overtakes
  it (`LostAnswers.LostAcceptanceIsOvertaken`).  `LostAnswers.SubmitAfterLostAcceptance` follows the coordinator
  through it.  No other lost answer changes the order (`RoomSafety.DispatchInOrder`).
- **A lost answer leaves an event unpublished** (`internal/room/coordinator.go:188-194`,
  `internal/client/client.go:596-653`).  The host publishes an event only after its transaction was answered, and
  a client that receives a larger number moves its cursor there without asking for what lies between.  A connected
  client therefore misses an event for good exactly if a later event is published before it
  (`MissedEvents.Drain`, `MissedEvents.FollowWrites`, `MissedEvents.MissedForGood`).  It misses nothing if the
  sender's resend, which publishes the event again, comes first (`MissedEvents.ResentInTime`), or if the client
  connects again first (`MissedEvents.Reconnect`).
- **Empty deltas.**  The adapter accepts a delta without text (`internal/codex/adapter.go:577-582`), the host
  then keeps an item without output, and a reset does not announce it.  A client that followed every event
  goes on counting it, so it can count more than the host; this happens exactly when some open item has no
  output (`ProjectionMirror.ResetLeavesEmptyItems`; `ProjectionMirror.EmptyDeltaLeaks` for any item).
- **No dynamic strings.**  The length check before a request looks at its limit only inside the loop over the
  dynamic strings, so a request without any is always accepted (`JsonLength.Preflight`).  Every caller passes
  at least one.
- **A fault outlives a recovery** (`internal/room/recovery.go:60-152`, `internal/room/coordinator.go:382-385`).
  `recover` does not clear the active fault.  The event "runtime unavailable" does
  (`internal/room/coordinator.go:455-460`), and the runtime sends it before "runtime ready"; so a fault outlives
  a recovery only where that event did not reach the coordinator, as when a workgroup step took it
  (`internal/workgroup/runtime.go:111-135`), or after an explicit Recover command
  (`internal/room/coordinator.go:72-84`), which the host itself gives only once, at its start, where no fault
  stands (`internal/cli/run.go:435`).  If it settles the faulty prompt from the agent's history, the
  next prompt runs under a flag that is not its own: its completion is stored as failed, and protocol errors
  it really causes are ignored.  The end of a turn is stored as reported if and only if the flag is down, and
  until a recovery image is loaded the flag belongs to the active prompt (`StaleFault.EndIsStored`).
  `StaleFault.FaultOutlivesRecovery` follows the coordinator through it, and `StaleFault.SoundTurnStoredFailed`
  is a run and a memory in that state, with every invariant intact.

## Model

| member | source | states |
|---|---|---|
| `RoomStoreFacts.StepKeeps` | internal/store/repository.go:180-256 | Every transaction, or its refusal, leaves the log gapless from 1 to the last number, rows with distinct ids in acceptance order, each row logged by its accepting event, one completion per thread, turn and item, and never rewrites an event or a row's identity. |
| `RoomStoreFacts.ItemRecordedOnce` | internal/store/repository.go:376-472 | A recorded item stays recorded: in any later state of the room the same content changes nothing and other content for the same thread, turn and item is refused. |
| `RoomStoreFacts.ResolveKeeps` | internal/store/recovery.go:318-469 | A review decision keeps the same shape although it writes up to two rows and three events. |
| `RoomStoreFacts.LogOverRuns` | internal/store/repository.go:708-738 | Over any run of transactions, refused ones included, the log stays gapless and only grows. |
| `RoomStoreFacts.AcceptanceRecorded` | internal/store/repository.go:180-256 | A first acceptance takes the next sequence number and stores its event under it. |
| `RoomStoreFacts.AcceptanceOverRuns` | internal/store/repository.go:180-256 | What a client was told about its command stays true over any later run. |
| `RoomStoreFacts.ResendTakesEffectOnce` | internal/client/client.go:577-590 | A command sent again after any run changes nothing and finds its first sequence number and event. |
| `RoomStoreFacts.DecisionTakesEffectOnce` | internal/store/recovery.go:318-469 | A review decision sent again after any run decides nothing and finds its own event. |
| `RoomTransitions.StepRows` | internal/store/repository.go:570-592 | Each transaction moves every stored row exactly as stated and appends exactly the stated rows. |
| `RoomTransitions.MovedClass` | internal/store/repository.go:594-609 | Only a dispatch puts a prompt into the agent's hands and only a retry returns one to the queue. |
| `RoomTransitions.OrderlyStep` | internal/store/repository.go:279-290 | At most one prompt is unfinished beyond the queue and it precedes every queued one outside a given set of exceptions, after every transaction that dispatches only the first one outside it, in an idle room. |
| `RoomTransitions.QueueHead` | internal/store/recovery.go:69-104 | The first entry of the recovery image's queue is the queued prompt with the least sequence number; the same with some prompts left out. |
| `DispatchJournal.CommitLedger` | internal/store/repository.go:279-290 | One transaction changes a prompt's ledger (out of the queue or not) by its dispatches minus its accepted retries. |
| `DispatchJournal.DispatchLedger` | internal/store/recovery.go:471-490 | After every effect of every run, dispatches of a prompt equal its accepted retry decisions, plus one when it is not queued. |
| `DispatchJournal.StartsFollowBegins` | internal/room/coordinator.go:207-228 | Calls of turn/start for a prompt never exceed its committed dispatches, and lag by one right after one. |
| `DispatchJournal.StartedAtMostOnce` | internal/room/coordinator.go:207-268 | Over every run with crashes anywhere and any answers lost, a prompt reaches turn/start at most once plus once per accepted retry. |
| `DispatchJournal.CrashIsSafe` | internal/room/recovery.go:60-152 | Whatever prefix of the effects a dying process leaves, it is again a run all results apply to. |
| `RoomSafety.SafeIsDurable` | internal/store/recovery.go:39-104 | After every effect of every run, whatever answers were lost: the log is sound, at most one prompt is in the agent's hands, it precedes every queued prompt whose acceptance was answered, prompts are bound only to their own turns, nothing is open behind a known frontier, the log is private and every question is hidden; no prompt is hidden if every stored frontier was answered. |
| `RoomSafety.DurableCommit` | internal/store/repository.go:279-374 | Every transaction a disciplined coordinator issues keeps the durable invariant, answered or not. |
| `RoomSafety.DispatchInOrder` | internal/room/coordinator.go:207-228 | On every run a dispatch takes the least queued prompt the coordinator can know of, in a ready room without a known frontier: every earlier prompt has ended, or waits because its acceptance was not answered and no image was read since; no later one has begun. |
| `RoomSafety.OnePromptAtATime` | internal/store/recovery.go:39-58 | In every reachable state at most one prompt is dispatching, running or in review, and it was accepted before every queued one whose acceptance was answered. |
| `RoomSafety.FailedOnlyIfUnsent` | internal/room/coordinator.go:230-241 | A prompt whose row goes from dispatching to failed, by whichever transaction, does so right after its own start was answered "not sent". |
| `RoomSafety.UncertainUntilDecided` | internal/room/coordinator.go:243-256 | After an uncertain start the prompt stays dispatching or in review, bound to no turn, until a member decides about it. |
| `RoomSafety.FrozenUntilDecided` | internal/room/coordinator.go:243-256 | After an uncertain start nothing else is dispatched before a decision about that prompt. |
| `RoomSafety.QuestionsStayPrivate` | internal/room/questions.go:133-200 | No item of a turn begun for a private question is ever in the log, whenever the process dies. |
| `RoomSafety.RecoveryHidesExactly` | internal/store/private_turns.go:32-81 | After every effect recovery would hide every turn begun for a question, and no turn begun for a prompt if every stored frontier was answered. |
| `RoomSafety.NoStartBehindFrontier` | internal/room/questions.go:94-113 | No prompt is started while a frontier stands that its owner was told of; none stands at all if every stored frontier was answered. |
| `LostAnswers.LostAnswerHidesAPrompt` | internal/room/questions.go:94-97 | A run in which only the answer to a stored frontier is lost, every other rule is kept, and recovery hides a prompt's turn. |
| `LostAnswers.HidesNoPromptExactlyIfAnswered` | internal/room/questions.go:94-97 | A stored frontier was answered if and only if recovery hides no prompt's turn in any run that goes on from there with every answer given. |
| `LostAnswers.LostFrontierHidesAPrompt` | internal/room/questions.go:94-97 | After any safe run that ends with an unanswered frontier, a member's next prompt may be started, and recovery then hides its turn. |
| `LostAnswers.LostAcceptanceIsOvertaken` | internal/room/coordinator.go:178-205 | After any safe run that ends with the unanswered acceptance of a prompt, in whatever state the room is, some run with every further answer given dispatches a later prompt while this one waits. |
| `LostAnswers.OvertakenExactlyIfLost` | internal/room/coordinator.go:178-205 | The first acceptance of a prompt was answered if and only if no run that goes on from there with every answer given dispatches a later prompt before it. |
| `LostAnswers.ToldIsNeverOvertaken` | internal/room/coordinator.go:178-215 | A prompt whose acceptance was answered is overtaken in no run at all, whatever answers are lost later. |
| `LostAnswers.SubmitAfterLostFrontier` | internal/room/questions.go:94-97 | From any idle ready coordinator: if the answer to a question's frontier is lost and the next prompt starts, recovery hides that prompt's turn. |
| `LostAnswers.SubmitAfterLostAcceptance` | internal/room/coordinator.go:178-228 | From any idle ready coordinator without a queue: if the answer to the first prompt's acceptance is lost and the second prompt's turn starts, the first is stored before it and still waits. |
| `StaleFault.EndIsStored` | internal/room/coordinator.go:369-391 | The end of the active turn is stored as reported if and only if no fault stands; until an image is loaded a standing fault belongs to the active prompt. |
| `StaleFault.FaultOutlivesRecovery` | internal/room/recovery.go:60-152 | A running prompt is blamed, recovery settles it, and another prompt is started: its regular completion is stored as failed under the old fault. |
| `StaleFault.CompletionUnderFault` | internal/room/coordinator.go:382-385 | From any ready idle coordinator that carries the flag, the next prompt that starts and completes is stored as failed. |
| `StaleFault.SoundTurnStoredFailed` | internal/room/coordinator.go:382-385 | A safe run in which only one prompt was ever blamed and has completed, and a memory in step with it that works on another prompt whose completion is stored as failed. |
| `RoomEnvironment.Environment.Transact` | internal/store/repository.go:128-137 | A transaction commits and answers, or reports an error and leaves no trace, or commits with its answer lost, which the journal records; the journal stays safe. |
| `RoomEnvironment.Environment.StartTurn` | internal/codex/adapter.go:230-250 | A start is only called right after its own committed dispatch and answers within the agent's contract. |
| `RoomEnvironment.Environment.ReadThread` | internal/codex/adapter.go:199-211 | A history read names every turn begun before it and is journaled with all it shows, or fails. |
| `RoomEnvironment.Environment.Crash` | internal/room/recovery.go:60-152 | After any effect the process may die, and the next one finds the tables of exactly those effects. |
| `RoomMemory.LoadedInStep` | internal/room/recovery.go:33-47 | The recovery image, loaded into memory, agrees with the store. |
| `RoomMemory.ReadyDispatch` | internal/room/coordinator.go:207-228 | A ready coordinator in step without an active turn holds the store's queue, so its head may be dispatched. |
| `RoomMemory.ResolvedInStep` | internal/room/recovery.go:266-337 | A review decision leaves a frozen coordinator in step although its image of the target may be stale. |
| `RoomCoherence.TouchKept` | internal/room/coordinator.go:207-337 | Whatever the agent may be working on stays in the coordinator's hands, and every reviewed control stays held, through any transaction on something it holds, answered or not. |
| `RoomCoherence.AlignKept` | internal/room/coordinator.go:178-337 | While the coordinator may dispatch, its queue stays the stored one without the overlooked prompts, through any transaction on something it holds, answered or not; a freshly accepted prompt counts as overlooked until it is told. |
| `RoomCoherence.QueueStep` | internal/store/repository.go:180-256 | Apart from a dispatch and a fresh decision, a transaction leaves the stored queue as it is but for the prompt it accepts. |
| `RoomCoherence.BeginAllowed` | internal/room/coordinator.go:207-215 | If the store would dispatch the head of a ready idle coordinator's queue, the room is idle, no known frontier stands, and it is the least queued prompt that is not overlooked, whatever answers were lost; with every answer given it is the least queued prompt. |
| `RoomCoordinator.Coordinator.Commit` | internal/room/coordinator.go:514-519 | An answered commit extends the journal by exactly that effect and hands its events to the sink in order without a gap; an error leaves memory in touch, and is either without trace or recorded as unanswered. |
| `RoomCoordinator.Coordinator.DispatchNext` | internal/room/coordinator.go:207-268 | Does nothing unless the room is ready, idle and has a queue; otherwise the head is committed as dispatching, started, and running, failed or frozen in review as the agent answered, or a store call failed. |
| `RoomCoordinator.Coordinator.DispatchFailed` | internal/room/coordinator.go:230-241 | Nothing was sent: the committed failure is the next effect and the following prompt is dispatched unless the store fails; otherwise the store failed and memory is unchanged. |
| `RoomCoordinator.Coordinator.DispatchUncertain` | internal/room/coordinator.go:243-256 | Nobody knows: the room is frozen, and the prompt is in review in memory and in its row with the recovering status stored, or the store failed. |
| `RoomCoordinator.Coordinator.DispatchStarted` | internal/room/coordinator.go:258-268 | The turn runs: it is bound and leaves the queue, or the store failed and the room is frozen with everything else unchanged. |
| `RoomCoordinator.Coordinator.HandleSubmit` | internal/room/coordinator.go:178-205 | A new prompt is accepted first, joins both queues, and exactly if the room was ready and idle the head is dispatched, started and bound, effect by effect; a note or a resent command changes nothing in memory, nor does an acceptance that reports an error, stored or not. |
| `RoomCoordinator.Coordinator.HandleControl` | internal/room/coordinator.go:270-315 | A resent steer or cancel is answered by its row; a new one fails as stale without being sent, or is sent to its turn and completed, failed or frozen into review as delivered, not sent or unknown, with its pending entry dropped or marked. |
| `RoomCoordinator.Coordinator.FinishControlOf` | internal/room/coordinator.go:316-337 | The row ends or goes into review as the next effect and its pending entry, and no other, is dropped or marked; a failed store call only freezes the room. |
| `RoomCoordinator.Coordinator.RepeatControl` | internal/room/coordinator.go:276-286 | A resent control is stale, unknown, not sent or fine exactly as its stored code and state say, and nothing is sent. |
| `RoomCoordinator.Coordinator.HandleItemDone` | internal/room/coordinator.go:344-368 | An item is stored only for the active turn and thread, and never for a private question. |
| `RoomCoordinator.Coordinator.HandleTurnEnded` | internal/room/coordinator.go:369-419 | Only the active turn's end is taken; it is stored as reported, or as failed while the fault flag stands, which is then cleared and the room made ready; then the head of the queue is dispatched if the room is ready and has nothing pending. |
| `RoomCoordinator.Coordinator.HandleProtocolError` | internal/room/coordinator.go:420-454 | A protocol error blamed on the active prompt freezes the room, puts it into review, and interrupts its turn; under a standing fault it is ignored, and with nothing active it ends the process. |
| `RoomCoordinator.Coordinator.HandleRuntimeUnavailable` | internal/room/coordinator.go:455-476 | The room is frozen, and the question and the fault are forgotten, whatever the store answers; an unfinished prompt goes into review in memory and in its row, also after the status could not be stored, unless its own store call failed. |
| `RoomCoordinator.Coordinator.LoadRecovery` | internal/room/recovery.go:33-47 | Memory becomes the recovery image of the tables, overlooked prompts included, and holds every pending control, or the read failed and it stays. |
| `RoomCoordinator.Coordinator.HandleRecover` | internal/room/recovery.go:60-152 | Refused while a question runs.  Success means that the recovering status was stored, the history was read and resumed, everything visible in it is in the log, the active prompt was finished as the history shows or awaits review, and the room works on whatever it has unless something awaits a decision.  An unknown outcome means a reported error, a room that was or has to be marked for repair, or a history that does not check or contradicts itself. |
| `RoomCoordinator.Coordinator.RecoverLoaded` | internal/room/recovery.go:76-151 | A room marked for repair stays so without an effect, one that died while creating its thread is marked; success and an unknown outcome mean what HandleRecover says, by the position of the effects. |
| `RoomCoordinator.Coordinator.Reconcile` | internal/room/recovery.go:179-253 | On success every item of every turn that recovery does not hide is in the log, the active prompt was finished with the end its history shows or is in review, and no frontier remains; contradicting ends mark the room for repair. |
| `RoomCoordinator.Coordinator.PrivateTurns` | internal/store/private_turns.go:32-81 | What is hidden is exactly what HiddenOnRecovery says of the turns read; it covers every question turn, and no prompt's turn if frontiers were answered; a standing frontier is settled by one committed effect. |
| `RoomCoordinator.Coordinator.BindNewThread` | internal/room/recovery.go:88-109 | A thread that checks is bound and taken over as the next two effects; a creation not sent leaves the room for another try; an unknown, invalid or unbound one marks it for repair. |
| `RoomCoordinator.Coordinator.Resume` | internal/room/recovery.go:132-151 | Unproven controls all go into review; with nothing active and nothing pending the room is stored as ready, and the head of its queue is dispatched. |
| `RoomCoordinator.Coordinator.HandleResolve` | internal/room/recovery.go:266-337 | Refused under an active fault; a resent decision changes nothing in memory; a fresh one is stored and freezes the room, and then the image read after it decides: repair, the retried control first, and readiness with a dispatch. |
| `RoomCoordinator.Coordinator.ResumeAfterDecision` | internal/room/recovery.go:286-337 | From the reloaded image: a room that needs repair stays so, a retried control is sent or failed as stale first, and a settled room becomes ready and dispatches. |
| `RoomCoordinator.Coordinator.RetryControl` | internal/room/recovery.go:296-327 | The retried control is sent to the turn it named, and to no other, exactly if that turn is active and running; its outcome is stored, and memory becomes the image read afterwards. |
| `RoomCoordinator.Coordinator.HandleQuestion` | internal/room/questions.go:61-122 | Refused without effect unless the room is ready, idle and without queue; then refused only for a failed read, an invalid history or a running turn; otherwise the frontier over exactly the turns read is stored before the question is started. |
| `RoomCoordinator.Coordinator.AskBehindFrontier` | internal/room/questions.go:94-113 | The frontier is committed, right after it the read-only turn starts, and an unsent question removes it again; an unanswered frontier changes nothing in memory; an uncertain start freezes the room. |
| `RoomCoordinator.Coordinator.DropFrontier` | internal/room/questions.go:100-110 | The frontier of a question that was certainly not sent is removed as the next effect, or the store failed and the room is frozen. |
| `RoomCoordinator.Coordinator.HandleQuestionEnded` | internal/room/questions.go:133-200 | The ended question's turn joins the hidden ones as the next effect and the head of the queue is dispatched if the room is ready, or the store failed and the room is frozen. |
| `RoomCoordinator.Coordinator.HandleAgentEvent` | internal/room/coordinator.go:339-483 | Every agent event keeps memory in touch, and in step as long as nothing was lost, and the journal safe; an item of the private question changes nothing. |
| `RoomRuns.Live` | internal/room/coordinator.go:53-70 | Over any number of processes, each serving any input and dying after any effect, with any answers lost, every prompt is started at most once plus its retries and the durable invariant holds. |
| `TaskRuns.TerminalIsFinal` | internal/store/repository.go:594-609 | No transaction moves a row out of a terminal state. |
| `TaskRuns.AttachSound` | internal/store/tasks.go:309-332 | Linking a new run keeps one unfinished run per task and one task per message. |
| `TaskRuns.ConvertedSound` | internal/store/tasks.go:240-279 | Converting a message that belongs to no task keeps them, notes included. |
| `TaskRuns.MarkedSound` | internal/store/tasks.go:280-300 | Completing needs every run to have ended; reopening needs nothing. |
| `TaskRuns.DecisionSound` | internal/store/recovery.go:559-601 | Retry, skip and continue keep the tasks sound; a replacement inherits its target's task. |
| `TaskRuns.StepSound` | internal/store/tasks.go:211-306 | Every transaction keeps: one task per message, at most one unfinished run per task, only ended runs in a completed task. |
| `TaskRuns.TasksOverRuns` | internal/store/tasks.go:211-306 | From sound tables, over any run of transactions. |
| `TaskRuns.TasksFromEmpty` | internal/store/tasks.go:211-306 | From an empty room, over any run of transactions, refused ones included. |
| `TaskRuns.ShownState` | internal/store/tasks.go:28-68 | The shown state is completed, unfinished, or completable exactly when the tables say so. |
| `RpcClient.Client.RegisterPending` | internal/codex/jsonrpc.go:334-349 | A call gets a new id and enters the map unless the connection has ended or ids ran out. |
| `RpcClient.Client.RemovePending` | internal/codex/jsonrpc.go:351-367 | The caller takes its call out and fails it, or learns that another party owes it a result. |
| `RpcClient.Client.BeginPendingWrite` | internal/codex/jsonrpc.go:369-386 | The first write starts exactly if the call is still pending; a response that came first is fatal. |
| `RpcClient.Client.WriteSome` | internal/codex/jsonrpc.go:498-523 | One write advances by the bytes taken; success only when all were, short or impossible reports become errors. |
| `RpcClient.Client.RecordWriteOutcome` | internal/codex/jsonrpc.go:427-449 | A quarantined response is released if a byte was taken and is fatal otherwise. |
| `RpcClient.Client.DeliverResponse` | internal/codex/jsonrpc.go:388-425 | A response before the write is fatal, during it is kept back, after it is owed to the caller only if a byte was taken. |
| `RpcClient.Client.FailAll` | internal/codex/jsonrpc.go:527-549 | Only the first failure counts; it empties the map and owes its error to exactly the calls that were in it. |
| `RpcClient.Client.SendOwed` | internal/codex/jsonrpc.go:527-549 | Each promised send finds its one-place channel empty. |
| `RpcClient.Client.Receive` | internal/codex/jsonrpc.go:451-465 | The caller decodes the one reply with the bytes its write reported. |
| `RpcClient.Client.AdmitServerRequest` | internal/codex/jsonrpc.go:643-663 | At most one server request is active, and one is admitted exactly when none is. |
| `RpcClient.LoserIsServed` | internal/codex/jsonrpc.go:285-302 | A caller that lost the race has exactly one reply coming. |
| `RpcClient.OutcomeTellsDelivery` | internal/codex/adapter.go:471-498 | A result or a refusal implies a returned write with a byte taken; "not sent" implies that none was; any byte taken implies "unknown". |
| `RpcClient.Interleave` | internal/codex/jsonrpc.go:253-304 | Under any interleaving, with a failure found under one lock reported under a later one, each call leaves the map by one party and gets at most one send. |
| `JsonLength.DecodesValid` | internal/codex/requests.go:114-126 | What the decoder accepts is the UTF-8 encoding of the scalar it reports. |
| `JsonLength.DecodesEvery` | internal/codex/requests.go:114-126 | Every UTF-8 encoding of a scalar is decoded. |
| `JsonLength.EscapedLength` | internal/codex/requests.go:95-131 | The result is the true length of the HTML-safe JSON literal, or one above the limit. |
| `JsonLength.RenderedLength` | internal/codex/requests.go:69-91 | Filling strings into a request adds exactly their escaped lengths. |
| `JsonLength.Preflight` | internal/codex/requests.go:69-91 | With at least one dynamic string, a request passes exactly when its encoding fits in 8 MiB. |
| `LiveProjection.Projection.ApplyDelta` | internal/room/projection.go:44-69 | The counter stays the exact cost within the budget; each revision carries one event. |
| `LiveProjection.Projection.ApplyCompleted` | internal/room/projection.go:70-94 | The same for a completion, which frees the item's output and keeps only its marker. |
| `LiveProjection.Projection.Snapshot` | internal/room/projection.go:105-123 | Lists every item with output once, with its output. |
| `LiveProjection.Projection.Reset` | internal/room/projection.go:124-139 | Everything goes; each shown item is announced once, then the end of the cut, one revision each. |
| `LiveProjection.Projection.RemoveTurn` | internal/room/projection.go:141-163 | Exactly the turn's items go, announced the same way, and the counter follows. |
| `ClientScreen.Screen.TakeSnapshot` | internal/client/render.go:35-51 | The screen becomes the snapshot, cut at the first item that does not fit. |
| `ClientScreen.SnapshotWhole` | internal/client/render.go:35-51 | A snapshot within the budget is taken over whole. |
| `ClientScreen.Screen.TakeTransient` | internal/client/render.go:58-93 | One event changes the screen as stated, old revisions nothing, and the counter stays exact. |
| `ClientScreen.Screen.TakeDurable` | internal/client/render.go:94-125 | A turn's end past the watermark clears its items and the cut; a completion clears its item. |
| `ProjectionMirror.ClientCountsLess` | internal/room/projection.go:9-11 | The client's counter never exceeds the host's, so it never cuts first. |
| `ProjectionMirror.MirrorDelta` | internal/room/projection.go:44-69 | After a delta's event the client shows what the host shows. |
| `ProjectionMirror.MirrorCompleted` | internal/room/projection.go:70-94 | After a completion's events too, also when the client skips a durable event it knows. |
| `ProjectionMirror.MirrorTurnEnd` | internal/room/coordinator.go:394-400 | After a turn's end and its removals too. |
| `ProjectionMirror.MirrorReset` | internal/room/recovery.go:27-31 | After a reset too. |
| `ProjectionMirror.MirrorSnapshot` | internal/daemon/replay.go:62-74 | A snapshot gives a new client everything the host shows. |
| `ProjectionMirror.ResetLeavesEmptyItems` | internal/room/projection.go:124-139 | After a reset a client counts no more than the host exactly when every open item has output. |
| `ProjectionMirror.EmptyDeltaLeaks` | internal/room/projection.go:105-139 | For every item that fits: one empty delta for it and any reset leave the client counting more than the host. |
| `EventHub.Hub.Publish` | internal/daemon/hub.go:65-97 | Every open subscriber gets the entry or is closed, by the length and byte limits on what it has not read; what was received and is queued is always exactly the stream, or a beginning of it once closed. |
| `EventHub.Hub.CloseLocked` | internal/daemon/hub.go:53-62 | Closing keeps what is queued readable and forgets the counters. |
| `EventHub.Hub.constructor` | internal/daemon/hub.go:34-42 | Limits out of range fall back to the largest. |
| `Replication.EmitSession` | internal/room/ports.go:40-43 | What a handler publishes reaches an open session's client after everything before it. |
| `Replication.SnapshotSession` | internal/daemon/replay.go:62-74 | Everything queued before the snapshot changes nothing but the cursor after it. |
| `Replication.ForwardSession` | internal/daemon/session.go:173-182 | Forwarding, or dropping what the snapshot covers, leads the client to the same state. |
| `Replication.Replica.HostTurnEnded` | internal/room/coordinator.go:394-400 | Publishing a turn's end keeps the client on course. |
| `Replication.Replica.HostCompleted` | internal/room/coordinator.go:352-368 | A completion is stored once, or found and published again, and keeps the client on course. |
| `Replication.Replica.HostUnanswered` | internal/room/coordinator.go:188-194 | An event is stored without being published, and the client stays on course towards what the host shows. |
| `Replication.Replica.HostLoad` | internal/room/recovery.go:33-47 | A recovery within one life raises the newest number to the log's, and the client stays on course. |
| `Replication.Replica.PublishNext` | internal/daemon/hub.go:65-97 | Handing one broadcast over, or overflowing the subscriber, keeps the client on course. |
| `Replication.Replica.Restart` | internal/room/recovery.go:60-152 | A new host process over the same log, with whatever the last one stored without learning of it, keeps the client's cursor sound. |
| `Replication.Replica.Connect` | internal/daemon/session.go:129-130 | The subscription is taken before anything is read. |
| `Replication.Replica.ReadHighWater` | internal/daemon/replay.go:23-43 | A client of this log is never ahead of it, so the high-water read never refuses it. |
| `Replication.Replica.ReplayPage` | internal/daemon/replay.go:44-61 | A page sends the next events in order, or stops for a closed subscription. |
| `Replication.Replica.SendSnapshot` | internal/daemon/replay.go:62-74 | The snapshot between two handlers completes the replay. |
| `Replication.Replica.Consume` | internal/client/client.go:596-663 | A durable event past the cursor is taken and the cursor moves there; what it passes over is missed, and was stored without being published since this session read the log; no transient event precedes the snapshot, and the cursor never goes back. |
| `Replication.Replica.CaughtUpAgrees` | internal/client/client.go:596-663 | A client that has taken everything shows the host's output and cut, counting no more than the host, and has applied the log but for what it missed and an unpublished tail; it has applied the whole log exactly if there is neither. |
| `Replication.Live` | internal/client/client.go:207-677 | Over any disconnects, closures, recoveries, host restarts and unanswered transactions, and any number of events written before the first is published, the client has applied events 1 to its cursor, once and in order, without those it missed; it missed only events stored without being published while its session was past the read of the log, so nothing if there were none. |
| `EventFrames.SkippedExactly` | internal/client/client.go:596-653 | A cursor passes over a number exactly if a larger one arrives before it. |
| `MissedEvents.Drain` | internal/daemon/session.go:173-182 | From any state of a live session, a client that takes everything on its way misses exactly the events that a later one overtakes. |
| `MissedEvents.FollowWrites` | internal/room/coordinator.go:188-194 | Over any transactions, some unanswered, a connected client misses exactly the unanswered ones that an answered one follows, and has applied the log up to its cursor exactly if no answered one follows an unanswered one. |
| `MissedEvents.OverrunExactly` | internal/room/coordinator.go:188-194 | What the published events of such a series pass over is exactly each unanswered transaction that an answered one follows. |
| `MissedEvents.ResentInTime` | internal/client/client.go:577-590 | A resend of the unanswered command before the next event leaves nothing out. |
| `MissedEvents.MissedForGood` | internal/client/client.go:596-599 | A missed event is never applied, whatever happens afterwards, reconnections included. |
| `MissedEvents.Reconnect` | internal/daemon/replay.go:23-75 | A client that connects again reaches the end of the log and misses nothing more, unpublished events included. |
| `Planner.CheckSteps` | internal/workgroup/plan.go:73-92 | Accepts exactly 1 to 16 steps with valid distinct ids, known agents and usable prompts. |
| `Planner.CheckDependencies` | internal/workgroup/plan.go:93-101 | Accepts exactly distinct dependencies on other steps of the plan. |
| `Planner.Plan` | internal/workgroup/plan.go:73-130 | Accepts a valid plan exactly when no round trip along dependencies exists; the order holds every step once, after what it needs, and is the least such order by authored index. |
| `Planner.FindReady` | internal/workgroup/plan.go:106-122 | The first authored step that is not done and waits for nothing. |
| `Planner.StuckIsCyclic` | internal/workgroup/plan.go:125-127 | When no step is ready, a cycle exists. |
| `Planner.OrderedIsAcyclic` | internal/workgroup/plan.go:103-129 | When an order exists, no cycle does. |
| `Workgroup.Execute` | internal/workgroup/runtime.go:187-402 | Final receipts are completed steps, at most one that stopped, then blocked ones; turn-completed is emitted exactly when every step succeeded, its output journaled before it was emitted, and the end could be stored. |
| `Workgroup.RunsAfterDependencies` | internal/workgroup/runtime.go:247-341 | A provider runs only after everything its step needs was run, journaled and emitted. |
| `Workgroup.RunsOnceInOrder` | internal/workgroup/runtime.go:247-341 | No step runs twice and none runs after one that did not succeed. |
| `Workgroup.Settle` | internal/workgroup/runtime.go:343-352 | What never ran is blocked and what was cut off is unknown. |
| `RemoteBroker.Broker.Invite` | internal/workgroup/remote.go:110-153 | A renewal on the same terms or a new worker; an expired worker with a job stays out and untouched. |
| `RemoteBroker.Broker.Poll` | internal/workgroup/remote.go:206-227 | The assignment travels in at most one poll, and never after a cancellation or the end of its run. |
| `RemoteBroker.Broker.Deliver` | internal/workgroup/remote.go:181-205 | Only the first result for the worker's current job is received. |
| `RemoteBroker.Broker.Leave` | internal/workgroup/remote.go:161-167 | The lease ends at once and a job is told to stop. |
| `RemoteBroker.Broker.Install` | internal/workgroup/remote.go:268-289 | A job is installed only on a worker that is still there, healthy and free. |
| `RemoteBroker.Broker.ContextDone` | internal/workgroup/remote.go:329-342 | A cancelled run ends at once only if no poll has carried the assignment, and then none will. |
| `RemoteBroker.Broker.Tick` | internal/workgroup/remote.go:343-353 | An expired lease ends the run as unknown if claimed, as disconnected otherwise. |
| `RemoteBroker.EndedIsExplained` | internal/workgroup/remote.go:229-356 | An ended job not reported as unknown was never handed out, or its result was received; at most one hand-out and one result. |
| `RemoteBroker.Interleave` | internal/workgroup/remote.go:105-228 | The same under any interleaving of invitations, departures, polls, results, cancellations and time. |
| `Supervision.OwnedChild.SignalOrReap` | internal/codex/process.go:323-341 | A signal is sent only to a child that was not reaped, and never after. |
| `Supervision.OwnedChild.Stop` | internal/codex/process.go:227-290 | Success is reported only for a child that was reaped cleanly. |
| `Supervision.OwnedChild.ReapLocked` | internal/codex/process.go:208-221 | The reap runs at most once. |
| `Supervision.Runtime.Start` | internal/codex/supervisor.go:232-321 | Starts only when every earlier child was reaped and its stop is stored; a failure that may leave something behind forbids another try, also when only the answer of the checkpoint was lost. |
| `Supervision.Runtime.Stop` | internal/codex/supervisor.go:387-428 | Success means the child was reaped and its stop is stored; the cleanup runs once, and the checkpoint may be retried although it was stored already. |
| `Supervision.Runtime.Run` | internal/codex/runtime.go:211-284 | Over any number of failures and lost answers, no child starts before every earlier one was reaped, the stored checkpoint alternates between running and stopped, and the delays are one doubling run after another. |
| `Supervision.Runtime.Restore` | internal/codex/runtime.go:228-282 | After one failure the delays slept are exactly the first ones of the doubling sequence, whether the checkpoint is retried, the start is retried, or nothing may be started any more. |
| `Supervision.DelayDoubles` | internal/codex/runtime.go:407-412 | The n-th delay of a failure is the initial one doubled n times, or the maximum. |
| `Supervision.NextBackoff` | internal/codex/runtime.go:407-412 | The delay never shrinks below the current one and never exceeds the maximum. |
| `BoundedRing.Ring.Write` | internal/codex/supervisor.go:576-591 | Afterwards the buffer holds the last bytes of everything written. |
| `BoundedRing.KeepsTheTail` | internal/codex/supervisor.go:576-591 | However the output was cut into writes, its tail is kept. |
| `PersonalBroker.Broker.Invalidate` | internal/personal/broker.go:60-74 | Everything unresolved is resolved once, its channel closed, and nothing of the turn stays claimable. |
| `PersonalBroker.Broker.Bind` | internal/personal/broker.go:84-99 | After a new turn is bound, no earlier request is unresolved. |
| `PersonalBroker.Broker.Enter` | internal/personal/broker.go:121-151 | The same content in the same turn is the same request. |
| `PersonalBroker.Broker.Next` | internal/personal/broker.go:183-209 | A client gets a request it holds, or claims one nobody holds, for good. |
| `PersonalBroker.Broker.Resolve` | internal/personal/broker.go:210-264 | Only the claimant's first answer counts. |
| `PersonalBroker.Interleave` | internal/personal/broker.go:60-264 | Under any interleaving: one result per request, its channel closed exactly with it, at most one claimant, and nothing of an earlier turn open; what was answered or claimed at any moment still is at the end. |

## Left out

- SQL, schema, migrations and row encodings: tables are sequences and maps, and a transaction is one function; a message row and its binding row are one record because every transaction updates both.
- Validation of texts, ids and digests: an id is a number, 0 stands for a blank one, and a body stands for everything its hash covers.
- Error digests and diagnostic codes beyond the ones that steer a branch.
- RoomStore.AcceptTx: does not model the optional submission validator and the payload hash itself; two bodies are equal when their hashes are.
- RoomStore.RecordCompletedItemTx: does not model the marker that replaces an oversized payload; the payload is one value.
- RoomStore.BeginPrivateTurnTx: does not model the thread column of the private tables; a room has one thread, and it is not rebound once it exists.
- Task titles, revisions, receipts and change rows; of the conversion of an agent's answer into a task only the resulting source message.
- A task change by another connection is ordered before or after a handler, not inside it; it touches only the tables of project tasks, which no handler step reads twice.
- RoomCoordinator.Coordinator.HandleItemDone: does not carry the live projection, which has its own modules; the coordinator here only stores and publishes.
- RoomCoordinator.Coordinator.HandleQuestionEnded: does not model the text of the answer, nor the interruption of a question whose asker left, which changes no state.
- The publication of an event that was already stored: publishing it again changes no counter in the coordinator and is modelled in Replication.
- RoomCoordinator.Coordinator.MarkThreadRepair: does not rule out that a repair mark is lost when the store refuses it; the process then only remembers it.
- A cancelled caller of the coordinator: every command runs to its end here.
- The App Server's wire format, its decoding, policy checks and the mapping of notifications to events.
- RpcClient.Client.WriteSome: does not model a context that ends inside one write of the underlying transport; between writes it may end at any time.
- RpcClient.CallerStep: a result is decoded or not by an arbitrary answer; what it contains is not modelled.
- Wrap-around of revision counters, sequence numbers and byte counters at 64 bits; the request id limit is modelled.
- LiveProjection.Projection.Snapshot: does not model the order of the listed items, which no reader depends on.
- The client's displayed active turn: review decisions end a turn without a turn event, so it is not replicated.
- EventHub.Hub.Receive: a receive that falls between two reads of a queue length inside publish is ordered before or after that subscriber's turn.
- Replication.Replica.HostUnanswered: not for an item whose output is still shown; the error after which it could be is fatal, and the end of that process is Replica.Restart.
- Replication.Replica.HostRecord: recovery records old items only when they are not shown; that it resets the projection first is taken from recover's first lines.
- Acknowledgements, heartbeats, rosters, rendering and the cursor file; a client of another room, which starts over with an empty cursor.
- Roles, authentication, TLS, sockets, HTTP handlers, flags, configuration, browser code and the dashboard.
- Config.Plan's choice between a direct member, an automatic plan and an explicit one, and all text and JSON handling around it.
- Workgroup.Execute: does not model the automatic planning step before the loop, prompts, handoffs and receipts' texts; the reservation of a run before it.
- Workspace snapshots, diffs and their application around a remote job: RemoteBroker.Broker.Install follows them, and what they decide after a result all counts as delivered.
- Supervision.Runtime.Run: does not model forwarding of events between two failures, and the version, policy and identity checks around a start count as one answer.
- The check of a previous host's process at startup.
- PersonalBroker.Broker.Resolve: does not model the shape of receipts; an answer fits or it does not.
- Push and document ledgers, command line tools of other programs, and file permissions.
