# DurableClaw protocols, modelled and proved in Dafny

This project models the durable protocols of the DurableClaw assistant and the text transformations
they depend on, and proves what each promises over every sequence of events: retries, duplicates,
reordering, stalls and crashes included.

An asynchronous handler is cut at its awaits. Each stretch between two awaits is one event of a
state machine; synchronous SQL, a storage transaction and a D1 batch are single stretches, and a
crash may come between any two events. Time is a non-decreasing natural number of milliseconds. A
handler keeps the clock value it read while other events happen. `Step` is total on enabled events
and `Run` folds it over an arbitrary sequence of events, skipping those that are not enabled, so a
statement about `Run(INIT, es)` is a statement about every reachable state. Calls to the outside
(models, providers, sockets, other objects) are nondeterministic outcomes carried by the events, and
history fields of the state log them.

Where the program changes fields, tables or refs in place, a class holds the same fields and its
methods follow the source's statements and loops. Their contracts tie the new state to the step
function, and the theorems are proved about those functions. The table below lists the methods that
hold a loop; the others (the handlers of `Coordinator`, `Subagent`, `Hook`, `Writer` and the tables)
are refinements of single steps.

Every lemma turns Dafny's automatic induction off; inductions are written out in the proofs.

| file | what it models |
|---|---|
| `SubagentBatches`, `SubagentBatchProofs`, `SubagentTheorems`, `SubagentResults`, `SubagentOutcomes`, `SubagentStories`, `SubagentCoordinator` | the coordinator of research subagents: spawn, dispatch pump, callbacks, deadline and synthesis jobs, busy postponement, cancellation, recovery |
| `SubagentChild`, `SubagentReports`, `SubagentProgress` | the research subagent: dispatch, cancellation tombstone, generation, durable report outbox, cleanup |
| `TurnTranscript`, `TurnProofs`, `TurnTheorems`, `TurnContents`, `TurnWriter` | how one turn writes its rows while it streams, completes, fails or is stopped |
| `History`, `HistoryReplay`, `HistoryContents` | the message table, the prompt window cut from it, its replay to a client and the client's reducer |
| `ConnectorQueue`, `ConnectorLedger`, `ConnectorReceipts`, `ConnectorStore` | the connector's promise-chain queue, invocation ledger and receipt budget |
| `CanonicalJson`, `CanonicalReader`, `ConfirmationGate` | canonical JSON text, the argument hash preimage and the two-phase confirmation gate |
| `MessagingDelivery`, `MessagingProofs`, `MessagingRuns`, `MessagingTheorems`, `MessagingDatabase`, `MessagingCards`, `MessagingStories` | delivery claims, approval buttons and pruning of the messaging bridge |
| `DeviceRequests`, `DeviceJobs`, `DeviceStories` | nonces of signed device requests and the device job table |
| `ClientConnection`, `ConnectionProofs`, `ConnectionTheorems`, `ConnectionStories`, `ClientHook` | the connect epochs, sockets and sends of the chat hook |
| `ToolReplay`, `RequestRestore`, `StreamNormalizer`, `StreamContents` | capture, storage and restoration of signed tool calls, and the chunked line transformer |
| `RateLimiter`, `SummaryMemory`, `MemoryInventory` | fixed-window rate limits, summary ranges, the remote memory inventory |

## Properties that do not hold as promised

Where the code falls short of what its comments or callers expect, the model keeps the code, and the
exact condition is proved.

- An open `wsRef` belongs to the current connect epoch except after a `connect()` with both
  `alwaysCreateNew` and `conversationId`, an open socket and no unspent path
  (`ConnectionTheorems.OpenIsCurrentIff`). If minting the new token then fails, later messages are sent
  on a socket whose replies are all dropped (`ConnectionTheorems.OrphanedChatIsOneWay`).
- A rate-limit counter can pass its maximum exactly when one call names the same key twice or the
  maximum is zero: only a row that exists can block, so `["k"]` with maximum 0 is counted once
  (`RateLimiter.CappedIffKeysDistinct`, `RateLimiter.RunsStayCappedIff`). The service's keys are distinct
  and its maxima positive (`RateLimiter.ServiceIsLimited`).
- A signed device request is accepted at most once exactly when the last moment at which a handler may
  check its timestamp, plus the time a handler takes from there to inserting its nonce, is not past the
  nonce's expiry (`DeviceRequests.OnceByIff`); for all requests together that is one millisecond
  (`DeviceRequests.OnceIffPrompt`, `DeviceRequests.ReplayAfterStall`).
- An inbound event is dispatched at most once exactly when handlers reach their claim within 23 hours
  and 55 minutes of reading the clock (`MessagingTheorems.InboundOnceIffNoLongStall`), a later reply is
  sent at most once exactly when they do within 47 hours (`MessagingTheorems.ReplyOnceIff`), and a
  confirmation gets one card per link exactly when they take at most 48 hours less ten minutes
  (`MessagingTheorems.OneCardIff`).
- A stopped turn shows the streamed text and the marker exactly when no more was stored than had been
  streamed (`TurnTheorems.StoppedTurnShowsStream`, `TurnTheorems.StopMayShowMoreThanStreamed`).
- Callbacks sent within 24 hours of an acknowledged cancel are all `cancelled` exactly when no other
  result was being signed at that moment (`SubagentChild.LateCallbackIff`); a state in which one is being
  signed is reachable (`SubagentChild.ResultMayFollowCancel`).
- A task accepted by a free object is generated exactly when no cancellation record is stored
  (`SubagentChild.ExpiredRecordIff`): an expired record still aborts it and its report is `cancelled`,
  until cleanup removes the record (`SubagentChild.RecordSilences`, `SubagentChild.ExpiredTombstoneCancels`).
- A failed turn shows the partial text once exactly when that starts with the text already stored
  (`TurnTheorems.FailedTurnShowsPartialText`).
- A replayed tool result is anchored at a bubble of its own turn exactly when an assistant row of that
  turn precedes it and the turn has a non-empty assistant row (`HistoryReplay.AnchoredIff`). A turn that
  called tools and completed without any text is the one that lacks such a row
  (`HistoryReplay.FinishedTurnsReadyIff`, `HistoryReplay.SilentToolTurnIsNotReady`).
- A deletion from the memory inventory leaves a namespace key without its locator exactly when an id
  has a key under a namespace that neither its locator nor the caller names
  (`MemoryInventory.DeleteStaysTraceableIff`).
- A memory query filtered by type returns only those types exactly when the index agrees with the
  inventory, because the filter looks at the index's metadata alone (`MemoryInventory.KindsAreRespectedIff`).

## Model

| member | source | states |
|---|---|---|
| SubagentTheorems.NoBatchIsStranded | src/durable-objects/NanoChatAgent.ts:5334-5442 | After any events, an active batch owns a deadline or a synthesis job; without a deadline job its tasks are all terminal or its synthesis job has used up its attempts; a synthesizing batch is the one the alarm handler is working on. |
| SubagentBatchProofs.RecoverActiveEquips | src/durable-objects/NanoChatAgent.ts:5334-5419 | Recovery alone, from any consistent tables, leaves no active batch without its job. |
| SubagentOutcomes.LastCallbackIsAnswered | src/durable-objects/NanoChatAgent.ts:5968-6142 | From every reachable state, when the callback of the last open task of a chat batch comes and the object is left alone, its conversation has one message that tells this result and all the others in spawn order, the batch is completed, and its tasks and jobs are gone. |
| SubagentOutcomes.JobDecides | src/durable-objects/NanoChatAgent.ts:6079-6142 | In every run a job that has to decide about its batch puts it off while the conversation is busy, hands a wake batch on, or closes it and posts to its conversation all findings, at the last resort the failure notice; every other batch, task, job and message stands. |
| SubagentOutcomes.JobOtherwise | src/durable-objects/NanoChatAgent.ts:6035-6142 | Every other picked job times out exactly the overdue tasks, clears up after a finished batch, or does nothing. |
| SubagentOutcomes.DeadlineSettles | src/durable-objects/NanoChatAgent.ts:6035-6078 | A deadline job that goes through settles every task of its batch, makes the synthesis due now and is gone itself. |
| SubagentOutcomes.FailedDeadlineIsRetried | src/durable-objects/NanoChatAgent.ts:6035-6078 | A deadline job that throws is due again in a minute for three times, then thirty seconds after its pick. |
| SubagentOutcomes.IdleSynthesisGoes | src/durable-objects/NanoChatAgent.ts:4400-4476 | A due synthesis job with nothing to decide is gone once it has run. |
| SubagentStories.JobsAreTheirStories | src/durable-objects/NanoChatAgent.ts:4400-4476 | In every run each job is exactly what the events tell: due at the spawn's deadline or when the last task settles, put back and counted at each pick, tried again, recovered at a restart, dropped with its batch. |
| SubagentStories.AlarmMoves | src/durable-objects/NanoChatAgent.ts:4400-4476 | Every event in every run moves the alarm handler as it must, and only a stop request tells children to stop: those under way of the batches it names. |
| SubagentTheorems.TerminalIsForever | src/durable-objects/assistant/subagentLedger.ts:158-197 | A task that is terminal keeps its status and result until its row is deleted, whatever callbacks, sweeps and cancels follow, and its id never gets a live row again. |
| SubagentResults.CallbackSettlesItsTask | src/durable-objects/NanoChatAgent.ts:5968-6022 | A callback that finds its task open writes exactly its status and result there; any other changes nothing; no other row, batch or message is touched. |
| SubagentResults.TasksHoldTheirReports | src/durable-objects/assistant/subagentLedger.ts:158-197 | In every run a task holds the status and result of the first callback that found it open; without one it has no result and is settled only as timed out after its deadline or failed after its attempts. |
| SubagentStories.TasksAreTheirStories | src/durable-objects/assistant/subagentLedger.ts:72-216 | In every run each task row is exactly what the events about it tell: queued with its batch's deadline, claimed with its attempt counted, running once its child accepts, settled once, gone with its batch. |
| SubagentStories.PumpMoves | src/durable-objects/NanoChatAgent.ts:5800-5966 | In every run the dispatch pump awaits exactly the rows it claimed with their attempts, and notes the batch of every row it gave up or dispatched. |
| SubagentTheorems.OneMessagePerBatch | src/durable-objects/NanoChatAgent.ts:5560-5630 | A batch inserts at most one message row over a whole run, and wherever that row is visible it holds the content first written. |
| SubagentStories.MessagesAreTheirStories | src/durable-objects/NanoChatAgent.ts:5560-5630 | In every run the message of a batch is exactly what the events tell: put there, section by section, by the job that closes the batch if its conversation exists, and gone when that is cleared. |
| SubagentStories.BatchesAreTheirStories | src/durable-objects/NanoChatAgent.ts:5420-5442 | In every run each batch row is exactly what the events about it tell: completed, failed, cancelled or handed on, each at its moment, and deleted a day after it finished. |
| SubagentTheorems.FindingsAreComplete | src/durable-objects/NanoChatAgent.ts:6079-6142 | Posted findings have exactly one section per spawned task, in spawn order, each of a settled task. |
| SubagentTheorems.FindingsMatchTheLedger | src/durable-objects/NanoChatAgent.ts:6079-6142 | Whatever event posts findings, in any run, the batch was active and settled at that moment and each section repeats its ledger row. |
| SubagentResults.FindingsQuoteTheReports | src/durable-objects/NanoChatAgent.ts:6079-6142 | Every section of every findings message ever posted quotes the first callback of its task. |
| SubagentTheorems.CapIsRespected | src/durable-objects/assistant/subagentLedger.ts:120-156 | In every run the number of dispatched and running tasks never exceeds the cap. |
| SubagentBatchProofs.StepKeepsInv | src/durable-objects/NanoChatAgent.ts:4400-4476 | Every event of the coordinator, crash and restart included, keeps the invariant that ties batches, rows, jobs and the alarm handler together. |
| SubagentCoordinator.Coordinator.StopAll | src/durable-objects/NanoChatAgent.ts:3600-3612 | The loop over the tasks of a batch settles every one and leaves a tombstone exactly for those in flight. |
| SubagentCoordinator.Coordinator.RunBatchSynthesis | src/durable-objects/NanoChatAgent.ts:6079-6142 | The synthesis handler posts the rendered rows, postpones a busy conversation, or finishes a closed batch, as the step says. |
| SubagentCoordinator.Coordinator.StopBatches | src/durable-objects/NanoChatAgent.ts:3589-3614 | The cancel loop leaves a tombstone for each task in flight, settles every task and closes every matching batch. |
| SubagentCoordinator.Coordinator.EquipActive | src/durable-objects/NanoChatAgent.ts:5375-5419 | The recovery loop gives exactly the unequipped active batches their missing job. |
| SubagentChild.GenerationIsNotRepeated | src/durable-objects/ResearchSubagent.ts:290-299 | While a report is stored no generation starts and no model is called. |
| SubagentChild.AcceptedIff | src/durable-objects/ResearchSubagent.ts:191-218 | A dispatch is accepted exactly when no live tombstone is stored and neither a stored task nor a stored report belongs to another id. |
| SubagentChild.CallbackIsDurable | src/durable-objects/ResearchSubagent.ts:496-514 | When a callback is begun, its report with the attempt counted is stored and an alarm is armed within a minute and before the report expires. |
| SubagentChild.AtMostEightCallbacks | src/durable-objects/ResearchSubagent.ts:476-533 | Of any one report at most eight callbacks are begun, across crashes and retries. |
| SubagentChild.CancelIsFinal | src/durable-objects/ResearchSubagent.ts:221-261 | For 24 hours after a cancel is acknowledged no model call starts, every dispatch is answered as already cancelled and no task appears, every callback begun carries `cancelled`, and so does every callback sent, except a report being signed at that moment. |
| SubagentChild.LateCallbackIff | src/durable-objects/ResearchSubagent.ts:725-760 | From every reachable state, all callbacks sent within 24 hours of an acknowledged cancel are `cancelled`, in every continuation, if and only if no other result was being signed at that moment. |
| SubagentChild.ExpiredRecordIff | src/durable-objects/ResearchSubagent.ts:191-218 | From every reachable state with a free object, the alarm of an accepted dispatch generates unaborted and may call the model if and only if no cancellation record is stored, expired or not. |
| SubagentChild.RecordSilences | src/durable-objects/ResearchSubagent.ts:334-337 | While a cancellation record is stored, expired or not, no model call starts, every callback begun is `cancelled`, and so is every report stored in that time. |
| SubagentChild.RecordAborts | src/durable-objects/ResearchSubagent.ts:229-256 | In every reachable state with a stored record, a generation in progress has been aborted. |
| SubagentChild.CleanupShrinks | src/durable-objects/ResearchSubagent.ts:263-285 | Cleanup, stopped after any write or failing, only deletes, keeps a live tombstone and leaves no handler at work. |
| SubagentChild.StepKeepsInv | src/durable-objects/ResearchSubagent.ts:287-470 | Every event, stopped after any of its writes, keeps one owner for the stored task and report and the counts of attempts. |
| SubagentReports.CallbacksTellTheEnding | src/durable-objects/ResearchSubagent.ts:472-582 | Every callback begun or sent in any run names a dispatched task and carries how its generation ended, cut to length; it says cancelled only after a cancel was stored. |
| SubagentProgress.DispatchRunsThrough | src/durable-objects/ResearchSubagent.ts:142-219 | From every reachable free state a dispatched task that is left alone is generated once, reported once as first attempt with its ending, and nothing of it stays stored. |
| SubagentProgress.EndedIsStored | src/durable-objects/ResearchSubagent.ts:395-470 | A generation that ended and got as far as one write has its report stored, wherever the rest stops. |
| SubagentProgress.RefusedIsRetried | src/durable-objects/ResearchSubagent.ts:472-534 | A refused callback is sent again at the next alarm with its attempt counted, as cancelled if a cancellation is stored, until its report expires; then nothing but a live tombstone stays stored. |
| SubagentProgress.EighthRefusalCleans | src/durable-objects/ResearchSubagent.ts:472-534 | A callback refused for the eighth time is given up and everything but a live tombstone is deleted. |
| SubagentProgress.AcceptedIsCleanedUp | src/durable-objects/ResearchSubagent.ts:263-285 | Once an accepted callback is noted, wherever the clean-up stops or fails, the next alarm, in a minute if it threw, finishes it and nothing is sent again. |
| SubagentProgress.EachAttemptIsSentOnce | src/durable-objects/ResearchSubagent.ts:496-514 | Of the callbacks sent for one report each is a later attempt than those before, across crashes. |
| SubagentProgress.WorkIsOnStoredTasks | src/durable-objects/ResearchSubagent.ts:290-345 | In every run the generations are exactly those of the tasks that alarms found stored without a report, and each model call is for the latest of them. |
| SubagentProgress.DeadlineEndsModelCalls | src/durable-objects/ResearchSubagent.ts:321-335 | After the deadline timer no model is called until another generation starts. |
| SubagentProgress.CrashIsRecovered | src/durable-objects/ResearchSubagent.ts:287-299 | An alarm run again after a crash sends a stored report with its next attempt, or generates a task that has none anew. |
| SubagentProgress.CrashEndsCancels | src/durable-objects/ResearchSubagent.ts:221-261 | No cancel request in progress at a crash goes on after it. |
| TurnTheorems.CompletedTurnShowsFullText | src/durable-objects/NanoChatAgent.ts:3917-3965 | However steps were split and whichever tools were journalled early, a completed turn's assistant rows concatenate to its full text. |
| TurnTheorems.StoppedTurnShowsStream | src/durable-objects/NanoChatAgent.ts:3560-3571 | A stopped turn shows the stored text, what was streamed beyond it and the marker; that is the streamed text and the marker if and only if no more was stored than streamed. |
| TurnTheorems.StopMayShowMoreThanStreamed | src/durable-objects/NanoChatAgent.ts:4096-4124 | There is a turn that stores a step before its text is relayed and shows more than was streamed when stopped. |
| TurnTheorems.StoppedTurnIsFinal | src/durable-objects/NanoChatAgent.ts:4042-4124 | Nothing that happens after a stop changes what the stopped turn shows. |
| TurnTheorems.OneRowPerCall | src/durable-objects/NanoChatAgent.ts:4042-4095 | A completed turn has exactly one call row and one result row per tool call. |
| TurnContents.RowsHoldWhatWasTold | src/durable-objects/NanoChatAgent.ts:4042-4124 | At every moment of every turn each call row holds the call, and each result row the name and output, last told about its id by a start, a completion or a stored message. |
| TurnContents.CompletedRowsHoldTheirCalls | src/durable-objects/NanoChatAgent.ts:3923-3965 | In every completed turn a call row holds exactly the name and input the provider asked for under its id, and a result row the output it delivered, unless a completion was reported later, under the name the tool started with. |
| TurnTheorems.TurnRowsAreWellFormed | src/durable-objects/NanoChatAgent.ts:4024-4124 | At every moment of every turn its rows are a transcript in which each result follows its call. |
| TurnTheorems.FailedTurnShowsPartialText | src/durable-objects/NanoChatAgent.ts:4229-4285 | A failed turn shows the stored text, what is missing of the partial text and the notice; that is the partial text and the notice if and only if the partial text starts with the stored text, and otherwise the whole partial text follows the stored text. |
| TurnWriter.Writer.RemainingMessages | src/durable-objects/NanoChatAgent.ts:3923-3965 | The filter keeps exactly the parts that were not journalled and refreshes the journalled rows. |
| TurnWriter.Writer.FilterCalls | src/durable-objects/NanoChatAgent.ts:3928-3947 | Journalled calls of a message update their rows and leave it; the others stay in order. |
| TurnWriter.Writer.FilterOutputs | src/durable-objects/NanoChatAgent.ts:3948-3962 | Journalled results of a message update their rows and leave it; the others stay in order. |
| TurnWriter.Writer.AppendTurnMessages | src/agent-core/history.ts:383-456 | The rows appended for provider messages, and the fallback text row exactly when none of them showed text. |
| History.UserRowsAreKept | src/agent-core/history.ts:222-291 | For any history whatever, no user row of the window is dropped, nor anything after the first one. |
| History.EmptyOnlyWithoutUser | src/agent-core/history.ts:222-291 | The prompt is empty only when the window holds no user row and nothing but a split turn. |
| History.WindowRepair | src/agent-core/history.ts:240-291 | Wherever a window cuts a well-formed history, the repair loses only the tool rows of the cut block. |
| History.PromptIsAcceptable | src/agent-core/history.ts:222-291 | For every well-formed history and every limit each tool result of the prompt follows its call and each call is answered. |
| HistoryContents.PromptSaysTheRows | src/agent-core/history.ts:304-375 | The prompt is the repaired window message by message: role, text, results under their call id and name, and every call with its id, name and input, in order. |
| HistoryContents.OpeningIs | src/agent-core/history.ts:240-270 | The prompt opens at the first row that is no tool result; that row goes too, with the tool rows after it, exactly if it asks for something that is never answered. |
| HistoryContents.ConversationInOrder | src/agent-core/history.ts:191-204 | Exactly the rows of the conversation, each after those before it in the table. |
| HistoryContents.AppendsOnce | src/agent-core/history.ts:141-189 | A row is inserted exactly when no row has its id; afterwards its id is taken, and every further append under it changes nothing and is told whether the conversation is the same. |
| History.HistoryStore.AppendMessage | src/agent-core/history.ts:141-189 | A message id that exists is left as it is; a new one is appended. |
| History.HistoryStore.LoadRecentRows | src/agent-core/history.ts:191-204 | The newest rows within the limit, in order. |
| History.HistoryStore.LoadRecentMessages | src/agent-core/history.ts:222-291 | The loops over `start` compute the specified window. |
| HistoryReplay.ReplayHistory | src/agent-core/replay.ts:18-98 | The loop over rows and its counters emit the specified frames. |
| HistoryReplay.ClientMirrorsServer | src/hooks/useAgentChat.ts:504-538 | Folding the frames, the client ends with the server's message count, the visible rows in order and one widget per tool row sent. |
| HistoryContents.ClientShowsTheRows | src/agent-core/replay.ts:41-75 | Every user row and every assistant row with text is shown at its place with its content, a terminal stop marker turned into a flag when ids are included. |
| HistoryContents.RepeatedMessageReplaces | src/hooks/useAgentChat.ts:511-538 | A message sent again under the id of a replayed row replaces that row's message and nothing else. |
| HistoryReplay.AnchoredIff | src/agent-core/replay.ts:27-97 | A tool row's number is that of a bubble of its own turn if and only if an assistant row of that turn precedes it and the turn has a non-empty assistant row. |
| HistoryReplay.WidgetsSitOnBubbles | src/hooks/useAgentChat.ts:653-668 | For histories that meet the condition, every widget the client holds sits on an assistant message it shows. |
| HistoryReplay.FinishedTurnsReadyIff | src/agent-core/history.ts:446-454 | However a turn ends it meets the condition if and only if it showed some text or had called no tool: a stopped or failed turn always, a completed one unless it called tools and its full text is empty. |
| HistoryReplay.SilentToolTurnIsNotReady | src/agent-core/history.ts:446-454 | A turn with one tool call, its result and no text completes and does not meet the condition. |
| HistoryReplay.NextTurnIsReady | src/agent-core/replay.ts:27-97 | A ready history followed by a user row and a ready turn is ready. |
| ConnectorQueue.QueueIsSerial | services/connectors/src/core.ts:191-222 | One request at a time, in arrival order, at most 32 admitted and unfinished. |
| ConnectorQueue.QueueProgresses | services/connectors/src/core.ts:191-222 | While requests are admitted one of them is being handled or the next in line can start. |
| ConnectorQueue.WhoStarts | services/connectors/src/core.ts:207-222 | Only the first request in line can start, and only when none is being handled. |
| ConnectorLedger.ExecutesAtMostOnce | services/connectors/src/core.ts:772-911 | Over all runs and restarts an invocation id starts external execution at most once. |
| ConnectorLedger.LedgerIsMonotone | services/connectors/src/core.ts:184-188 | A row keeps its id and arguments, a decided status is final, a cleanup receipt never changes, a completed result can only be dropped. |
| ConnectorLedger.KnownIdNeverRunsAgain | services/connectors/src/core.ts:949-1028 | Presenting a known id again replays the stored outcome for the same arguments and conflicts otherwise; it never inserts. |
| ConnectorReceipts.RowsFollowEndings | services/connectors/src/core.ts:772-911 | In every run each row says how its call ended: running until then, completed with the result that should still be there, or unknown with exactly the cleanup that was reported. |
| ConnectorReceipts.SuccessIsReplayed | services/connectors/src/core.ts:881-897 | A success of at most 512 KiB that fits the budget is replayed to the same id and request in every continuation until its result is evicted. |
| ConnectorReceipts.FirstCallBeginsIff | services/connectors/src/core.ts:949-1028 | A request begins its external call if and only if its id was never presented before, it is at most five minutes old and thirty seconds ahead, and the table has room; a late one and a full table are told apart. |
| ConnectorLedger.ReceiptsStayInBudget | services/connectors/src/core.ts:881-897 | Stored receipts never exceed 32 MiB nor the table 10,000 rows. |
| ConnectorLedger.CleanupIsAlwaysStored | services/connectors/src/core.ts:914-947 | The "storage unavailable" branch is unreachable: every cleanup that is to be stored ends up in its row. |
| ConnectorLedger.CleanupReceiptSize | services/connectors/vendor/gogcli/diagnostics.ts:6-29 | Any accepted list of cleanup warnings serializes within the bound the store relies on. |
| ConnectorLedger.RoomIsFound | services/connectors/src/core.ts:914-947 | From any reachable table the eviction loop can make room for a cleanup receipt. |
| ConnectorReceipts.EvictsOnlyTheOldest | services/connectors/src/core.ts:914-947 | Making room drops nothing that fits, only results of completed rows, the oldest first and no more than needed. |
| ConnectorReceipts.ReceiptTellsAll | services/connectors/src/core.ts:914-918 | Two lists of cleanup warnings have the same receipt if and only if they are the same. |
| ConnectorStore.InvocationStore.MakeRoom | services/connectors/src/core.ts:914-947 | The loop ends, its running total is the true sum throughout, and no cleanup receipt is discarded. |
| ConnectorStore.InvocationStore.Oldest | services/connectors/src/core.ts:925-940 | The oldest completed row that still has its result, if there is one. |
| ConnectorStore.InvocationStore.TotalBytes | services/connectors/src/core.ts:918-925 | The sum of all stored receipt lengths. |
| ConnectorStore.InvocationStore.Recover | services/connectors/src/core.ts:184-188 | At construction every running row becomes unknown and nothing else changes. |
| ConnectorStore.CleanupWarnings | services/connectors/vendor/gogcli/diagnostics.ts:6-29 | All of a well-formed list, nothing of any other. |
| CanonicalJson.CanonicalIffSame | src/action-library/confirmations.ts:18-36 | Two values have the same canonical text if and only if they are the same JSON value up to key order, dropped undefined fields and undefined as null elsewhere, at any nesting. |
| CanonicalJson.PreimagesAgree | src/action-library/confirmations.ts:37-54 | Two calls share a hash preimage exactly when they have the same scope and, the confirmation id aside, the same arguments; a scoped and an unscoped call never do. |
| CanonicalJson.CanonicalIsWellPaired | src/action-library/confirmations.ts:37-54 | Every surrogate of a canonical text stands in a pair, so encoding it as UTF-8 is injective. |
| CanonicalReader.CanonicalReadsBack | src/action-library/confirmations.ts:18-36 | Canonical text is JSON text after RFC 8259: read back it is the same value, and at every nesting the keys ascend in code units. |
| CanonicalReader.PlainTextStays | src/action-library/confirmations.ts:18-36 | Text without controls, quotes, backslashes and lone surrogates is printed as it is. |
| ConfirmationGate.ExecutesAtMostOnce | src/action-library/helpers.ts:134-188 | However calls, decisions, expiry and crashes interleave, a confirmation executes its tool at most once. |
| ConfirmationGate.ExecutesOnlyWhatWasApproved | src/action-library/helpers.ts:134-188 | Every execution was approved, won before expiry, and carries the conversation, tool, scope and, as JSON, the arguments it was issued for. |
| ConfirmationGate.DecisionsAreFinal | src/durable-objects/assistant/toolConfirmations.ts:170-198 | In every run a confirmation is decided at most once and for good: its row says what the first decision on it said while it was stored and less than ten minutes old, and only a confirmed one is ever approved or spent. |
| ConfirmationGate.DeclinedNeverExecutes | src/durable-objects/assistant/toolConfirmations.ts:170-198 | A declined confirmation is never approved, spent or executed in any continuation. |
| ConfirmationGate.RowsAreKept | src/durable-objects/assistant/toolConfirmations.ts:127-168 | The table holds exactly the confirmations issued, until their conversation is cleared or another is issued after they expired. |
| ConfirmationGate.CallAlone | src/action-library/helpers.ts:150-188 | An undisturbed call executes and spends its confirmation if and only if that is stored, confirmed, unspent and unexpired for the same conversation, tool, scope and JSON arguments; otherwise a new confirmation is issued for exactly its request. |
| ConfirmationGate.CrashEndsCalls | src/action-library/helpers.ts:134-188 | No call that began before a crash executes after it. |
| ConfirmationGate.Store.IssueConfirmation | src/durable-objects/assistant/toolConfirmations.ts:127-168 | Rows whose expiry has passed go, and one new pending row is inserted that expires ten minutes later. |
| ConfirmationGate.Store.DecideConfirmation | src/durable-objects/assistant/toolConfirmations.ts:170-198 | A decision changes the one row with its id, and only while that is pending and unexpired; the reply says whether it did. |
| ConfirmationGate.Store.ConsumeConfirmation | src/durable-objects/assistant/toolConfirmations.ts:224-241 | Consumption succeeds exactly for an approved, unconsumed, unexpired row and marks it consumed. |
| MessagingTheorems.ActsAtMostOnce | src/channels/service.ts:600-622 | Although claims are pruned after 48 hours, no guarded key is acted on twice in a run. |
| MessagingStories.RowsAreTheirStories | src/channels/service.ts:531-641 | In every run each delivery row is exactly what the events about its key tell: claimed for its link, owner and clock while the link stands, its key is free and the owner has fewer than 1024, kept for 48 hours, settled at the clock of its ending, given back by a failed notice, pruned when it expired. |
| MessagingStories.ActionsAreClaimed | src/channels/service.ts:94-165 | What is dispatched or sent is exactly, in order, what was claimed by a handler that went on while its link, and for a reply the request's live row, was still there. |
| MessagingTheorems.InboundOnceIffNoLongStall | src/channels/service.ts:501-527 | An inbound event is dispatched at most once in every run if and only if handlers take less than 23 hours 55 minutes from clock to claim. |
| MessagingTheorems.ReplyOnceIff | src/channels/service.ts:94-165 | A later reply is sent at most once in every run if and only if handlers take less than 47 hours from the job's age check to the claim. |
| MessagingRuns.RepliesTwice | src/channels/service.ts:94-165 | With a stall of 47 hours there is a run that sends one reply twice, its request claimed anew in between. |
| MessagingProofs.SecondClaimFails | src/channels/service.ts:361-371 | A guarded claim won before still has its row whenever somebody can try it again. |
| MessagingRuns.TwiceAfterLongStall | src/channels/service.ts:361-371 | With a longer stall there is a run that dispatches one event twice. |
| MessagingTheorems.RetentionIsCapped | src/channels/service.ts:116-164 | Retained claims per owner never exceed 1024, nor cards 128. |
| MessagingTheorems.OneDecisionPerToken | src/channels/approvals.ts:185-244 | A button token yields at most one decision, ever. |
| MessagingStories.DecisionsAreThePresses | src/channels/approvals.ts:185-244 | The decisions taken are exactly, in order, those of the presses made in the chat and message the unexpired, unpressed card was sent to, with its link unchanged and room for the owner. |
| MessagingStories.CardsAreTheirStories | src/channels/approvals.ts:61-175 | In every run each card is exactly what the events about its token tell: made for its confirmation and link until the confirmation or ten minutes run out, settled with the provider's answer and message, pressed once, pruned. |
| MessagingStories.LinksAreTheirStories | src/channels/service.ts:374-527 | A link stands as it was made until it is removed; no claim, card or press touches it. |
| MessagingTheorems.ConsumedWithItsDelivery | src/channels/approvals.ts:185-244 | A button is consumed in the very step that writes its delivery row, and in no other. |
| MessagingProofs.BatchIsAllOrNothing | src/channels/approvals.ts:185-244 | The two statements of the consuming batch succeed or fail together. |
| MessagingTheorems.OneCardPerConfirmation | src/channels/approvals.ts:61-175 | Timeouts and crashes never mint a second live button for one confirmation and link. |
| MessagingTheorems.OneCardIff | src/channels/approvals.ts:61-175 | One card per confirmation and link in every run if and only if handlers take at most 48 hours less ten minutes from clock to claim. |
| MessagingRuns.CardsTwice | src/channels/approvals.ts:61-175 | With a longer stall there is a run that sends two cards for one confirmation and link. |
| MessagingDatabase.Database.SendApprovalCards | src/channels/approvals.ts:61-175 | At most eight cards are offered, each claimed before it is sent; the fallback text is due if and only if there were more or one of them neither left an actionable card nor found, by the time it would be sent, that its link was gone or that it had expired. |
| MessagingDatabase.NoFallbackMeansShown | src/channels/approvals.ts:61-175 | Without a fallback text every offer has, in the end, a card that was sent, or whose link was gone or which had expired by the time it would be sent. |
| MessagingCards.OfferedCard | src/channels/approvals.ts:61-175 | A won claim leaves a card for its confirmation and link that expires with it or after ten minutes and says whether it was sent, may have been sent, or was not reached; a lost one leaves no trace. |
| MessagingCards.AllServedIff | src/channels/approvals.ts:61-175 | No fallback text is due exactly if every offer, when its turn came, was sent or out of reach, or had a card that can still be pressed. |
| DeviceRequests.AcceptedOnceInTime | src/devices/routes.ts:106-162 | Whatever the stall, a request whose handlers all read the clock early enough to insert before its nonce can be purged is accepted at most once. |
| DeviceRequests.OnceByIff | src/devices/routes.ts:106-162 | For every request, stall and last moment at which its timestamp is checked, it is accepted at most once in every run if and only if that moment plus the stall is not past the nonce's expiry. |
| DeviceRequests.AcceptedAtMostOnce | src/devices/routes.ts:106-162 | With clock read and nonce insertion at most a millisecond apart, a signed request is accepted at most once although nonces are purged. |
| DeviceRequests.OnceIffPrompt | src/devices/routes.ts:106-162 | Over all requests that millisecond is exact. |
| DeviceRequests.ReplayAfterStall | src/devices/routes.ts:112-155 | For every request and moment past that bound, a run in which it is accepted twice. |
| DeviceRequests.NoncesAreCapped | src/devices/routes.ts:112-155 | The nonce table of a device is bounded. |
| DeviceRequests.AcceptedAloneIff | src/devices/routes.ts:106-162 | From every reachable state, an undisturbed request is accepted if and only if its timestamp is within a minute, its device is enrolled and unrevoked and has fewer than 500 nonces, and not this one. |
| DeviceRequests.RevokedStaysOut | src/devices/routes.ts:445-462 | After a revocation no nonce of the device is stored and no request of it is accepted, in any continuation. |
| DeviceJobs.ClaimedAtMostOnce | src/devices/routes.ts:166-221 | Each job is claimed at most once, whatever devices poll and however late their clocks are. |
| DeviceStories.ClaimsAreHandedOut | src/devices/routes.ts:193-221 | The claims are exactly those that polls of working devices got, in order. |
| DeviceJobs.QueueIsCapped | src/devices/store.ts:143-193 | No device ever has more than 30 jobs queued or claimed. |
| DeviceJobs.JobsFollowTheirStates | src/devices/routes.ts:193-207 | Every step moves a job only from queued to claimed, cancelled or expired, or from claimed to completed or unknown under the same claim. |
| DeviceStories.JobsAreTheirStories | src/devices/routes.ts:166-300 | In every run each row of the job table is exactly what the events about that job alone tell: taken, claimed until its timeout and a minute more, completed, cancelled, expired or unknown at the clock of its event. |
| DeviceStories.PollTakesTheLongestWaiting | src/devices/routes.ts:193-207 | A poll takes the job of its device that has waited longest and has not run out, and none only if there is none. |
| DeviceStories.SweepKeepsTheLatest | src/devices/store.ts:96-118 | A sweep deletes only finished jobs, keeps at most the 200 latest of its owner and none older than a week, and deletes a younger one only when it keeps 200. |
| DeviceJobs.FinishedIsFinal | src/devices/store.ts:96-118 | A finished job is at any later time exactly as it was or deleted. |
| DeviceJobs.GoneForGood | src/devices/store.ts:96-118 | A deleted job never comes back under its id. |
| DeviceJobs.LateReportsChangeNothing | src/devices/routes.ts:262-296 | After a result was saved and any further run, the same report is a duplicate while the job is kept, every other report is refused, and none changes anything. |
| DeviceStories.ReportIsAnswered | src/devices/routes.ts:262-296 | A report is stored if and only if its job is claimed by it, the claim has not run out and the device is active; a duplicate if and only if it is stored already; what is not stored changes nothing. |
| DeviceJobs.RevokedGetsNothing | src/devices/routes.ts:425-462 | A revoked device is never handed another job. |
| DeviceJobs.JobTable.Earliest | src/devices/routes.ts:180-200 | The scan finds the earliest claimable job of the device, if there is one. |
| ConnectionTheorems.OneSocketPerEpoch | src/hooks/useAgentChat.ts:370-403 | Each connect epoch creates at most one socket, in every interleaving of connects, sends, switches, resets and socket events. |
| ConnectionTheorems.NoSocketLeaks | src/hooks/useAgentChat.ts:392-449 | There is never an open socket besides the one in `wsRef`. |
| ConnectionTheorems.FrameCountsIff | src/hooks/useAgentChat.ts:453-463 | A frame changes the transcript if and only if its socket is unretired and of the current epoch, and then that socket is the one in `wsRef`. |
| ConnectionTheorems.OnlyFramesAreFrames | src/hooks/useAgentChat.ts:453-500 | No other event applies a frame. |
| ConnectionTheorems.ConversationsDoNotInterleave | src/hooks/useAgentChat.ts:453-463 | In the log of transcript changes, frames of two sockets never interleave. |
| ConnectionTheorems.OpenIsCurrentIff | src/hooks/useAgentChat.ts:850-890 | In a run an open `wsRef` always belongs to the current epoch if and only if no `connect()` with both options ever finds the socket open and its path spent. |
| ConnectionTheorems.OrphanedChatIsOneWay | src/hooks/useAgentChat.ts:870-893 | A run in which the user's message leaves on an orphaned socket whose frames no longer count. |
| ConnectionTheorems.SendsAreHeard | src/hooks/useAgentChat.ts:1057-1095 | Without such a connect a message leaves on the open, unretired socket of the current epoch. |
| ConnectionTheorems.SendsLeaveInOrder | src/hooks/useAgentChat.ts:978-1095 | Messages leave in the order they were asked for, each at most once. |
| ConnectionStories.SendGetsThrough | src/hooks/useAgentChat.ts:978-1095 | From every reachable state with no socket open or on its way, a send left alone reconnects to the known conversation, or the latest one, or a new one if that was wished for, and its message goes out on the new socket if and only if it named that conversation or none. |
| ConnectionStories.RefsAreTheirStory | src/hooks/useAgentChat.ts:850-976 | In every run the conversation, the wish for a new one and the send number are exactly what the events tell; a superseded answer changes none of them. |
| ConnectionStories.ChangesAreTheirStory | src/hooks/useAgentChat.ts:453-500 | In every run the transcript is changed by exactly the events that may change it, each once and in order: the user's own actions, a message that goes out, the history cleared for an opening socket, a frame that counts. |
| ConnectionStories.OpenIff | src/hooks/useAgentChat.ts:392-449 | In every run a socket is open if and only if it opened as the unretired one of its epoch and has since not closed, failed, timed out, or been given up or replaced; then it is in `wsRef`. |
| ConnectionStories.SocketsOnlyAge | src/hooks/useAgentChat.ts:392-449 | No socket ever opens again, loses its retirement or settles twice, in any continuation. |
| ConnectionStories.OpeningDecides | src/hooks/useAgentChat.ts:405-449 | A socket that opens late, retired or superseded, is closed at once and its promise settled; otherwise it is open and in `wsRef`. No other socket is touched. |
| ConnectionStories.LostIsGivenUp | src/hooks/useAgentChat.ts:392-449 | In every run a socket that failed, closed or timed out is no longer in `wsRef` unless a newer epoch has begun. |
| ToolReplay.CaptureConcatenates | src/action-library/openrouterReplay.ts:50-101 | For every delivery, the record of a call holds its argument fragments in order, the extra content that came last and the reasoning of its choice. |
| ToolReplay.CapturedCallResolves | src/action-library/openrouterReplay.ts:50-101 | An id that one call of a response carries resolves to exactly the bytes, reasoning and extra content delivered for that call. |
| ToolReplay.ReloadRestoresRecords | src/action-library/openrouterReplay.ts:25-47 | What stored messages mention resolves after a reload to what it was when they were stored. |
| ToolReplay.Recorder.OnChoice | src/action-library/openrouterReplay.ts:58-101 | The loop over the tool deltas of a choice extends exactly the records of their indexes, in order. |
| RequestRestore.PatchedCallsAreOriginal | src/action-library/openrouterReplay.ts:103-170 | In a patched request every known call carries its recorded bytes and extra content, the calls of a message are its own in original index order, its details are the reasoning recorded for the last of them with any, and every other message is untouched. |
| RequestRestore.PastIsUnsigned | src/action-library/openrouterReplay.ts:103-170 | Before the last user message no Gemini reasoning and no thought signature survives a patch. |
| RequestRestore.StripTakesTheSignature | src/action-library/openrouterReplay.ts:134-165 | Stripping takes the thought signature alone: every other field stays, and records left empty go. |
| RequestRestore.FilterConcat | src/action-library/openrouterReplay.ts:134-165 | Gemini items are taken out one by one; the others stay in order. |
| RequestRestore.UnpatchedIsUntouched | src/action-library/openrouterReplay.ts:103-170 | A request without a known call goes out as it is. |
| RequestRestore.RestoreIsIdempotent | src/action-library/openrouterReplay.ts:103-170 | Restoring a restored request changes nothing more. |
| RequestRestore.StreamedBytesGoOutAgain | src/action-library/openrouterReplay.ts:172-195 | Captured, stored, reloaded and restored, a call after the last user message goes out with the fragments it came in with and the extra content, with its thought signature, that came last. |
| RequestRestore.RestoreRequest | src/action-library/openrouterReplay.ts:103-170 | The nested loops compute the specified restoration. |
| StreamNormalizer.ChunkingIsInvisible | src/action-library/loop.ts:162-209 | However a response is cut into chunks, buffer, emitted text and captured deltas are those of the whole text. |
| StreamNormalizer.SameTextSameStream | src/action-library/loop.ts:162-209 | Two cuttings of the same response cannot be told apart, flush included. |
| StreamContents.LinesComeOutInOrder | src/action-library/loop.ts:162-209 | However the response is cut, the SDK gets its lines one by one in order: events normalized, everything else as it came, an unfinished last line as it is. |
| StreamContents.LinesRejoin | src/action-library/loop.ts:167-170 | Splitting a text into its lines and the rest loses nothing. |
| StreamContents.EventIsAcceptable | src/action-library/loop.ts:172-190 | A normalized event differs only in that every tool delta has an index and, with extra content, a function object; ids, argument bytes and extra content are as they came. |
| StreamContents.ResponseIsRecorded | src/action-library/loop.ts:162-209 | However the response is cut, each call of the replay table holds the bytes, the last extra content and the reasoning that the event lines carry for it. |
| StreamNormalizer.Normalizer.OnLines | src/action-library/loop.ts:170-200 | The loop over complete lines handles them in order, as one pass over the whole text would. |
| StreamNormalizer.Split | src/action-library/loop.ts:162-175 | Every complete line, then the rest; joined again they are the text. |
| RateLimiter.CappedIffKeysDistinct | src/identity/security.ts:113-143 | From every table within the maximum, a call leaves all counters within it if and only if it names no key twice and, unless it names none, its maximum is not zero. |
| RateLimiter.RunsStayCappedIff | src/identity/security.ts:113-143 | Over all runs from the empty table no counter passes the maximum if and only if the call names no key twice and the maximum is not zero. |
| RateLimiter.RepeatedKeyRunOverruns | src/identity/security.ts:113-143 | A run from the empty table in which a call that names a key twice takes its counter past the maximum. |
| RateLimiter.ZeroMaximumAdmitsOne | src/identity/security.ts:113-143 | With a maximum of zero the first call of a window is counted. |
| RateLimiter.LimitKeysDistinct | src/identity/IdentityDO.ts:165-174 | The identity service's keys are distinct. |
| RateLimiter.LimitKeysSeparate | src/identity/IdentityDO.ts:165-174 | Two requests share an address key exactly if category and the first 64 characters of the address are the same, the owner key exactly if the category is. |
| RateLimiter.ServiceIsLimited | src/identity/IdentityDO.ts:165-174 | Whatever requests of whatever categories arrive, each key's counter stays within its category's maximum and the key is admitted at most twice that often in any five minutes. |
| RateLimiter.ServiceMaxima | src/identity/IdentityDO.ts:165-174 | The same in numbers: 10, 10, 30, 30 and 120 for the address and the owner key of every request, twice that in any five minutes. |
| RateLimiter.AdmissionsAreBounded | src/identity/security.ts:113-143 | With calls of different maxima sharing the table, a key is admitted in any stretch of one window's length at most twice its own maximum, or twice if that is zero. |
| RateLimiter.CountersAreExact | src/identity/security.ts:113-143 | In every run each counter is the number of admissions of its window and exceeds its key's maximum only as the single admission of a maximum of zero. |
| RateLimiter.RefusalLeavesNoTrace | src/identity/security.ts:113-143 | A refused call leaves no trace: from any reachable state every run goes on as if the next call had come that much later. |
| RateLimiter.Limiter.Consume | src/identity/security.ts:113-143 | The three loops of one transaction compute the specified table and answer. |
| SummaryMemory.SelectionIsOldest | src/agent/summary-memory.ts:106-128 | The selection holds the oldest unsummarized messages in order, as many as its bounds allow, and leaves at least the retained number of newer ones. |
| SummaryMemory.StoredSummaryIsTheSelection | src/agent/summary-memory.ts:190-234 | A stored selection becomes one summary with its first and last sequence, its number and its text; an empty one leaves no trace. |
| SummaryMemory.ArchiveOnlyGrows | src/agent/summary-memory.ts:170-188 | Every message is archived, once by its id, and archive and summaries only grow. |
| SummaryMemory.RangesIncrease | src/agent/summary-memory.ts:214-234 | Stored ranges are disjoint and increasing. |
| SummaryMemory.SummariesTileTheArchive | src/agent/summary-memory.ts:190-234 | Every archived message up to the latest end lies in exactly one range, and no later message lies in any. |
| SummaryMemory.CountsAddUp | src/agent/summary-memory.ts:214-234 | The counts add up to the messages up to the latest end. |
| SummaryMemory.NewestAreRetained | src/agent/summary-memory.ts:106-128 | Whatever is selected, at least the retained number of newest messages stays unsummarized. |
| MemoryInventory.AlwaysTraceable | src/utils/memoryClient.ts:127-192 | At every crash point of every sequence of writes and deletes in which an id keeps its namespace, a vector has its namespace key and the key its locator. |
| MemoryInventory.DeleteStaysTraceableIff | src/utils/memoryClient.ts:362-402 | A deletion leaves everything traceable wherever it stops if and only if every key of its ids lies under the locator's namespace or the caller's hint. |
| MemoryInventory.TwoHomesStrandAKey | src/utils/memoryClient.ts:362-402 | An id written under two namespaces and deleted without a hint leaves a key nothing points to. |
| MemoryInventory.QueriesReadTheInventory | src/utils/memoryClient.ts:206-296 | Whatever the index answers, a query returns a memory if and only if the index named it with a type asked for and the caller's namespace holds it now, with the content stored there. |
| MemoryInventory.KindsAreRespectedIff | src/utils/memoryClient.ts:206-243 | Every query filtered by type returns memories of those types alone if and only if the index agrees with the inventory about the types of the live memories it names. |
| MemoryInventory.DeletedIsUnreadable | src/utils/memoryClient.ts:264-296 | Once a deletion has completed no query returns the memory, however stale the index is. |
| MemoryInventory.Inventory.DeleteByIds | src/utils/memoryClient.ts:362-402 | Deleting chunk by chunk, each by the locators still there, is deleting all at once. |
| MemoryInventory.Inventory.ActiveMatches | src/utils/memoryClient.ts:264-296 | The matches whose namespace key is stored, in order, with the stored content. |

## Left out

- Cryptography and encodings: digests and signatures are represented by what they digest or sign, taken as injective; SHA-256, HMAC, Ed25519, AES-GCM and JWT are not part of this model.
- HTTP routing, principal and header checks, OAuth exchange and field-by-field request validation: a request that is refused there has no effect on the modelled state.
- Model generation, tool execution and provider calls: an arbitrary outcome chosen by the event.
- React state, rendering, the frame reducer beyond history replay, request-scoped frame filters and conversation listing pages of the chat hook.
- Recovery's insertion of batch rows for task rows written before batches existed, the dispatch-job timer, the order in which claimSlots prefers queued tasks, and a wake batch's model call and bookkeeping rows.
- Socket frames and channel-reply jobs sent after a batch message is stored.
- Storage failures that are caught and not fatal, other than in the child's cleanup; elsewhere a failed write is a crash after a prefix of the writes.
- Clearing or deleting a conversation in the middle of its turn.
- Objects with `toJSON`, bigints and array holes in canonical JSON; numbers are the decimal text they print as.
- Decoding of UTF-8 across chunk boundaries in the normalizer, and malformed entries of `tool_calls` in a request body.
- Enrollment and session freshness (src/identity/security.ts:34-111): every fact about them can be read from one body.
- Telemetry, prompt text, schema migrations, dreaming, wake settings, MCP tools, workspace and browser tools.
- MessagingTheorems.ActsAtMostOnce: says nothing about notifications, whose claim is given back when a preflight check fails, so that they may be attempted again.
- MessagingTheorems.RetentionIsCapped: counts retained rows; a row outlives its expiry until the next prune.
- SubagentChild.GenerationIsNotRepeated: a crash before the report is stored repeats the generation, and a duplicate dispatch after cleanup starts a new one, as in the source.
- SubagentTheorems.NoBatchIsStranded: states that the job exists, not that the platform fires its alarm.
- ConnectorLedger.CleanupIsAlwaysStored: a cleanup whose text contains a credential is not stored at all, as in the source; which texts do is not part of this model.
- ConnectorQueue.QueueProgresses: states that the next request can start, not that a handler ends.
- StreamNormalizer.ChunkingIsInvisible: parsing and rendering of JSON events are parameters.
