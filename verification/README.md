# ACP Gateway: verified models

ACP Gateway is a local daemon that runs worker agents for the programs that drive
them (Mains). This project models the parts of it whose meaning is furthest from how
the code computes it, in Dafny 4.11, and proves that meaning for every input, every
interleaving and every crash. `dafny verify dfyconfig.toml` checks all of it.

Where the code updates objects, the model is a class with the same fields whose
methods are proved against a specification function and keep an invariant; the
theorems are then lemmas about runs of those functions. What the world decides (how a
write fares, which answers a channel takes, what time it is) is an argument. Where the
code only computes, the model is functions.

| modules | what they model |
|---|---|
| Wrappers | an optional value, and the lesser and greater of two numbers |
| Utf8, BoundedText, Accumulator | the bounded UTF-8 tail accumulator: blocks, sealed views, a carried surrogate, eviction, copy-out |
| TextHead, TextLines | byte caps and the streaming line window, through short reads |
| TaskLedger, TaskStore | tasks, their durable log, and the write-ahead barriers, with a crash at any step |
| TurnProtocol, TurnEffects, TurnStatus, TurnTasks, TurnHistory, TurnLedger, TurnSafety, GatewaySession | the session protocol: mailbox, reservations, status table, turn token and seal, four competing finalizers, and what each step brings about |
| WorkerRequests, AcpClient | the requests a worker makes of Main: pending maps, ids that read the same, caps, cancel and clear |
| Approvals, ShellWords | one-shot approvals, approved edits, and the command line Main reads |
| MainStatus, MainRegistry | the registry of Mains and its revisioned event stream |
| Inbox, Replay, Attention | inbox budgets, a record that holds its own size, history eviction, replay round robin, keyset paging |
| Ustar, TarWriter | the release archive writer, and a reader that gives back what was written |
| DirectoryWalk, JsonLock, Ndjson | the link-resolving directory walk, the lock-file update of JSON files, NDJSON framing |

## What turned out not to hold

The code is modelled as it is; these are the exceptions, each with its exact condition.

- With `maxBytes` below 3, a surrogate pair split between two appends is lost
  (src/bounded-utf8.js:370-375). What is retained is still the right tail for every
  bound; a run loses nothing if and only if the bound is at least 3 or no append ends
  inside a pair (`BoundedText.ConservedPerRun`).
- The outcome a commit tells is final if and only if its record was synced
  (`TaskLedger.ToldIsFinalExactly`). Otherwise what was told is the report that it could
  not be stored, and after a crash the task is interrupted, or has the answer after all
  where the record was written and survived; `TaskLedger.UnstoredMayReturn` is one such
  run.
- A path of 101 bytes whose only slash comes first loses it in the archive
  (`Ustar.PathRoundTrips`, an if and only if). The archive root name in front of every
  path keeps that from happening.
- `setStablePayloadBytes` ends at the record's own length if and only if the record did
  not say `-1`, which it leaves (`Inbox.SetStablePayloadBytes`).
- What Main reads of a command is what a shell would make those words of, if and only if
  no word with an equals sign is spelled without quotes (`ShellWords.DisplayIsTheShells`):
  `A=b` in front reads as an assignment (src/acp-client.js:2242-2246).
- `updateJsonFile` keeps its file right through every power loss if and only if the file
  system can sync a directory (`JsonLock.RightIffSynced`). Where it cannot, the code
  empties the file it replaced although a power loss can still bring that file back.
- src/attention.js:40-42 says that anything new sorts after every existing key. The code
  does not see to it: two requests of one millisecond are ordered by random ids
  (`Attention.SameMillisecondIsMissed`). Paging misses exactly the items that come at or
  below the position (`Attention.EachOnceInOrder`), so none where the list gains only
  larger keys (`Attention.NothingMissed`).

## Model

| member | source | states |
|---|---|---|
| Utf8.DecodeInvertsEncode | src/bounded-utf8.js:225-231 | the UTF-8 written for a text decodes to the text (section 3 of RFC 3629) |
| Utf8.EncodeInvertsDecode | src/bounded-utf8.js:260-278 | bytes that decode at all are the encoding of what they decode to |
| Utf8.ReadingInvertsWriting | src/bounded-utf8.js:225-231 | text reads as the characters it was written from, pairs included (section 2.1 of RFC 2781) |
| Utf8.WritingInvertsReading | src/bounded-utf8.js:225-231 | a text is what its characters write if and only if no surrogate is alone |
| Utf8.LoneReadsAsReplacement | src/bounded-utf8.js:260-278 | a surrogate without its partner reads as U+FFFD |
| Utf8.TailIsLongest | src/bounded-utf8.js:190-192 | the tail kept fits the limit, is a suffix in whole characters, and no longer suffix fits |
| Utf8.CutKeepsTail | src/bounded-utf8.js:379-385 | evicting up to the first character boundary past the excess keeps exactly that longest tail |
| BoundedText.RunHolds | src/bounded-utf8.js:214-241 | for every bound and every sequence of appends: what is retained is the longest tail of all text appended that the bound, less a carried surrogate, allows; from three bytes up, what was trimmed and what is retained are the whole encoding |
| BoundedText.SplitDoesNotShow | src/bounded-utf8.js:335-376 | the text retained depends only on the concatenation of the appends, never on how it was split |
| BoundedText.LastCharactersStay | src/bounded-utf8.js:190-241 | characters appended in any pieces, split inside them or not, are retained as the longest run of the last of them that fits, all of them where all fit; from three bytes up nothing else is trimmed |
| BoundedText.ConservedPerRun | src/bounded-utf8.js:335-376 | a run conserves its bytes if and only if the bound is at least three or no append ends inside a surrogate pair |
| BoundedText.ConservedExactly | src/bounded-utf8.js:370-375 | a bound conserves the bytes of every run if and only if it is at least three |
| BoundedText.SplitPairIsLost | src/bounded-utf8.js:370-375 | below three, a surrogate pair split between appends anywhere in a run breaks conservation |
| BoundedText.AppendHolds | src/bounded-utf8.js:214-241 | one append keeps the law of the retained tail, whatever the text ends or begins in the middle of |
| Accumulator.WriteBehind | src/bounded-utf8.js:234-239 | writing behind the open end of a block changes no sealed view of the same block |
| Accumulator.Rest | src/bounded-utf8.js:390-396 | what stays of an evicted chunk holds the same bytes and pins no store larger than 16384 or twice its length |
| Accumulator.BoundedUtf8Text.Create | src/bounded-utf8.js:200-212 | an accumulator for every bound of at least one, and an error for any other |
| Accumulator.BoundedUtf8Text.Seal | src/bounded-utf8.js:300-308 | the open bytes become a sealed view; the text held does not change |
| Accumulator.BoundedUtf8Text.MakeRoom | src/bounded-utf8.js:310-320 | there is room for the append, in the same block or a new one, and the text held does not change |
| Accumulator.BoundedUtf8Text.Trim | src/bounded-utf8.js:335-376 | chunk by chunk eviction ends at the cut of the whole, and the byte counts fit the bound |
| Accumulator.BoundedUtf8Text.Append | src/bounded-utf8.js:214-241 | the stored form refines the append of the simple accumulator: same live bytes, same trimmed bytes, same carried surrogate |
| Accumulator.BoundedUtf8Text.Reset | src/bounded-utf8.js:243-258 | the accumulator starts again with the given text, and every store it holds on to is new |
| Accumulator.BoundedUtf8Text.ToString | src/bounded-utf8.js:260-278 | the text read is the longest fitting tail of all text given; reading, and the collapse it does, changes nothing an append or a read can tell |
| Accumulator.BoundedUtf8Text.Pinned | src/bounded-utf8.js:194-198 | every live sealed chunk pins at most max(16384, 2 x its length) bytes; the counters are the lengths of what was trimmed and of what is live |
| TextHead.HeadIsLongest | src/bounded-utf8.js:4-6 | the head is a prefix in whole characters that fits, and no longer one does |
| TextHead.Utf8ByteHead | src/bounded-utf8.js:7-14 | the bytes returned are the longest fitting head of the text |
| TextHead.TrimIncompleteUtf8 | src/bounded-utf8.js:18-31 | only a character that is begun and not complete is cut from the end |
| TextHead.TrimCuts | src/bounded-utf8.js:15-31 | of valid UTF-8 cut anywhere, trimming backwards keeps exactly the whole characters |
| TextHead.BothCutsAgree | src/bounded-utf8.js:7-31 | the look-ahead cut and the backward trim agree on every text and every limit that cuts it |
| TextHead.ReadInto | src/bounded-utf8.js:61-69 | through any short reads, the buffer is filled from the start of the file as far as the file goes |
| TextHead.ReadTextHead | src/bounded-utf8.js:89-99 | truncated exactly when the file exceeds the cap, and then the head trimmed to whole characters |
| TextLines.WindowIsSlice | src/bounded-utf8.js:101-103 | skipping and taking lines in one forward pass gives the bytes of split, slice and join |
| TextLines.JoinInvertsLines | src/bounded-utf8.js:151-156 | joining the split lines gives the file back |
| TextLines.LinesInvertJoin | src/bounded-utf8.js:151-156 | joined lines split back into themselves, where none holds a line feed |
| TextLines.RefusedExactly | src/bounded-utf8.js:104-112 | nothing is read for a line that is no finite number, or a limit that is none or not positive |
| TextLines.NumbersMean | src/bounded-utf8.js:104-125 | which line and how many a fraction, an infinity or a number below two means |
| TextLines.SkipLines | src/bounded-utf8.js:138-143 | skipping within one chunk leaves the same lines still to skip in the rest of the file |
| TextLines.TakeLines | src/bounded-utf8.js:144-158 | what one chunk contributes, and whether the window is complete |
| TextLines.ReadTextLines | src/bounded-utf8.js:104-177 | for every line, limit, cap, chunk size and pattern of short reads: the window split, slice and join give, cut at the cap and trimmed to a character, truncated exactly when it exceeds the cap |
| TaskLedger.SentIsDurable | src/gateway-service.js:2495-2514 | after any run and whatever a crash keeps: the task of a prompt that left is still known, and never as one that was not started |
| TaskLedger.ToldIsDurable | src/gateway-service.js:4014-4085 | an outcome handed out is in every state a crash can leave, and in the store after the restart unless the handle expired |
| TaskLedger.ToldIsFinal | src/gateway-service.js:4014-4085 | through any further steps and crashes the task keeps that outcome, stays until it is removed or expires, and never has another one, unless the outcome was the report that it could not be stored |
| TaskLedger.ToldIsFinalExactly | src/gateway-service.js:4014-4085 | in every state, the outcome a commit tells survives every crash if and only if its record was synced; the answer comes back where it was written unsynced and survives |
| TaskLedger.UnstoredMayReturn | src/gateway-service.js:4014-4085 | one run that shows the exception: the failure told, and either outcome after the crash |
| TaskLedger.TerminalIsFinal | src/task-store.js:372-424 | short of a restart, a terminal status and its result are never replaced |
| TaskLedger.RestartMakes | src/task-store.js:745-792 | a restart keeps every surviving handle but the expired ones: a terminal task as it is, any other failed with the report of the restart and otherwise unchanged |
| TaskLedger.InFlightFails | src/task-store.js:762-772 | in every run, a task in flight is failed and interrupted after a restart, whatever of the log survives |
| TaskLedger.UnsentIsNotStarted | src/gateway-service.js:2495-2514 | a task none of whose prompts left is never taken for one that reached the worker, in any state a crash leaves |
| TaskLedger.CreateMakes | src/gateway-service.js:2355-2385 | a handle is new and working, and in the durable state, if and only if its record was synced; otherwise it is taken back |
| TaskLedger.MoveShows | src/task-store.js:372-424 | a status that ends nothing shows at once, is logged exactly when it changed something or is news, and never replaces an outcome |
| TaskLedger.LogSaysWhatMemoryDoes | src/state-store.js:642-706 | a log that survives whole gives a moved task the status and turn it has in memory, leaves the others as they were, and has no handle that was taken back |
| TaskLedger.CreateKeeps | src/gateway-service.js:2355-2385 | creating a handle keeps the log and the store in agreement, in every state a crash can leave |
| TaskLedger.SendKeeps | src/gateway-service.js:2241-2264 | a prompt that leaves after its stamp leaves nothing a crash can deny |
| TaskLedger.CommitKeeps | src/gateway-service.js:4014-4085 | a commit makes the outcome durable before it is told, in every state a crash can leave |
| TaskLedger.CrashKeeps | src/task-store.js:745-792 | recovery from any surviving prefix of the log is again sound |
| TaskLedger.RunKeeps | src/state-store.js:642-706 | every run of every operation, failure and crash stays sound |
| TaskStore.TaskStore.Transition | src/task-store.js:372-424 | a terminal record is left as it is; waiters are told at once or deferred, once |
| TaskStore.TaskStore.FlushWaiters | src/task-store.js:425-438 | a deferred outcome is told as it stands |
| TaskStore.TaskStore.FailDeferredTerminal | src/task-store.js:439-461 | a deferred outcome that could not be stored is told as failed, and only that |
| TaskStore.TaskStore.CreateTask | src/gateway-service.js:2355-2385 | a handle is returned exactly when its creation record was synced |
| TaskStore.TaskStore.StampPromptDispatched | src/gateway-service.js:2495-2514 | the stamp stands exactly when it was synced |
| TaskStore.TaskStore.SendPrompt | src/gateway-service.js:2241-2264 | the prompt leaves only behind a durable stamp; a stamp whose prompt did not leave is withdrawn |
| TaskStore.TaskStore.CommitTaskTerminal | src/gateway-service.js:4014-4085 | append, sync and tell in that order, with the failure report in place of an outcome that was not stored |
| TaskStore.TaskStore.WaitForTerminal | src/task-store.js:553-576 | a wait answers only with a terminal status that is not deferred |
| TurnSafety.ActiveHasTurn | src/gateway-service.js:44-70 | over every interleaving: running, waiting_permission, waiting_input and cancelling have an unsealed turn, except while a close that sealed it is under way; and only they have one |
| TurnSafety.SealedOnce | src/gateway-service.js:647-655 | each turn is finalized at most once, and its task is then terminal or gone |
| TurnSafety.MovesAreEdges | src/gateway-service.js:612-646 | every status move of every run is an edge of the table, and the moves lead, each where the next begins, to the status the session has |
| TurnSafety.NoRivalTurn | src/gateway-service.js:2215-2295 | no turn starts while another is unsealed |
| TurnSafety.ClosedIsFinal | src/gateway-service.js:48-70 | closed is absorbing, short of a crash before it was saved |
| TurnSafety.SentIsDurable | src/gateway-service.js:2342-2461 | the barrier around prompts holds through the whole session protocol |
| TurnSafety.ToldIsDurable | src/gateway-service.js:4014-4085 | so is every outcome a waiter or subscriber saw: it is in whatever a crash leaves |
| TurnSafety.ToldIsFinal | src/gateway-service.js:3991-4012 | and it is never another one later, nor lost to a crash while the store has the task |
| TurnSafety.RunReaches | src/gateway-service.js:2342-2461 | the session protocol only ever moves its tasks by the ledger's own operations |
| TurnSafety.UnsealedTurnFails | src/task-store.js:762-772 | in every run, a crash in the middle of a turn fails the turn's task, whatever of the log survives and however the session was saved |
| TurnEffects.ReplyEnds | src/gateway-service.js:4232-4246 | a turn's normal end completes its task, a cancel that was requested or reported cancels it, and a failure fails it, on a dead worker as on a live one; durable, and told |
| TurnEffects.LateReply | src/gateway-service.js:2296-2338 | a reply to a turn that is sealed or not the current one changes nothing |
| TurnEffects.ExitEnds | src/gateway-service.js:4822-4836 | a worker's death fails the turn it owed |
| TurnEffects.OrphanEnds | src/gateway-service.js:4791-4821 | with Main gone for good, where it is due, the turn is cancelled |
| TurnEffects.CloseCancels | src/gateway-service.js:3555-3601 | a close cancels the turn's task before it waits for the worker |
| TurnEffects.CloseWaits | src/gateway-service.js:3555-3601 | turn or no turn, a close of an open session waits for the worker, and one of a closed session does nothing |
| TurnEffects.CloseCloses | src/gateway-service.js:3601-3619 | and ends closed from any status, with everything that waited rejected |
| TurnEffects.CancelAsks | src/gateway-service.js:3364-3394 | a cancel leaves the turn and its task going on, until the worker says it is over |
| TurnEffects.InputShows | src/gateway-service.js:3620-3642 | status and task show the permission, else the question the worker waits on, else that it runs; a turn being cancelled stays so |
| TurnEffects.AskShows | src/gateway-service.js:3665-3755 | a request whose row was made is shown as what the session and its task wait for |
| TurnEffects.AskRefused | src/gateway-service.js:3665-3755 | one whose row was refused is not, and the turn goes on |
| TurnEffects.PromptLeaves | src/gateway-service.js:2241-2295 | a prompt that leaves behind a synced stamp starts a running turn under a fresh token and frees the reservation |
| TurnEffects.DirectPrompt | src/gateway-service.js:2241-2295 | a prompt without a task starts a turn exactly where the worker takes it; either way the reservation is free |
| TurnEffects.PromptWithheld | src/gateway-service.js:2241-2264 | one that does not leave starts none: its handle is withdrawn, or its task fails unstarted where Main holds it already |
| TurnEffects.EndedIsNotSent | src/gateway-service.js:2241-2264 | a prompt whose task was cancelled meanwhile is not sent |
| TurnEffects.PromptAdmitted | src/gateway-service.js:1987-2022 | admitted exactly where nothing holds the session, no turn or restore is under way and it is open; it then holds it |
| TurnEffects.TaskAdmitted | src/gateway-service.js:2355-2385 | a task's prompt exactly where, besides, its handle was synced |
| TurnEffects.OthersAdmitted | src/gateway-service.js:1987-2027 | a restore is admitted where the session is free and has lost its worker, a change of configuration where it is free and open, a look at it where it is open |
| TurnEffects.IntentsEnd | src/gateway-service.js:1987-2027 | what holds a session is let go by the command it was taken for and by no other |
| TurnEffects.MovesAreRecorded | src/gateway-service.js:612-646 | a status is accepted exactly where the session has it or takes it, and each move is recorded |
| TurnEffects.TaskCancelled | src/gateway-service.js:3991-4012 | a task cancelled by itself is so at once, and told |
| TurnEffects.MailboxTakes | src/session-queue.js:40-77 | 32 commands may wait or run, and two more of the worker's requests; what does not fit is rejected, and the end of a turn always fits |
| TurnEffects.MailboxRuns | src/session-queue.js:122-136 | one command at a time, the worker's side first, each side in its order |
| TurnEffects.RestoreEnds | src/gateway-service.js:1814-1857 | a restore that fails leaves the session unavailable and its command failed, one that succeeds leaves it idle on a live worker with its command ready |
| TurnEffects.CommandsPrepare | src/gateway-service.js:1745-1800 | a prompt or a change of configuration goes straight on to a live worker and otherwise to a restore, if that may be; on a closed session it has failed |
| TurnEffects.SegmentsDo | src/gateway-service.js:2215-2264 | how each command that waited goes on, or ends |
| TurnEffects.RejectedFail | src/session-queue.js:77-84 | what the mailbox rejected fails, and lets go of what it held |
| TurnEffects.QuietEnds | src/gateway-service.js:4859-4871 | a quiet session lets its worker go, and closes past its time |
| TurnEffects.BusyStays | src/gateway-service.js:4859-4871 | a session that is busy keeps its worker and stays open |
| TurnEffects.RestartFails | src/gateway-service.js:480-524 | a restart finds the session disconnected, or closed if saved so, without a worker, a reservation or a command, and its task in flight failed |
| TurnEffects.TableByTarget | src/gateway-service.js:44-70 | the status table by where each move leads |
| TurnStatus.NextTurns | src/gateway-service.js:2215-2338 | every event keeps the agreement of status, turn token and seal |
| TurnTasks.NextKeeps | src/gateway-service.js:4232-4246 | every event keeps each admitted task tied to exactly one command, turn or end |
| TurnHistory.NextHistory | src/gateway-service.js:647-655 | every event keeps the record of sealed turns free of repeats and their tasks over |
| TurnLedger.NextReaches | src/gateway-service.js:2215-2338 | every event moves the tasks by operations of the ledger |
| GatewaySession.GatewaySession.SetStatus | src/gateway-service.js:612-646 | a move is taken exactly where the table has an edge, and recorded |
| GatewaySession.GatewaySession.SealTurn | src/gateway-service.js:647-655 | the first to claim a turn finalizes it, the others are refused |
| GatewaySession.GatewaySession.FinishTurn | src/gateway-service.js:2296-2338 | a worker's reply ends only the turn it belongs to, unsealed and of a session not closed |
| GatewaySession.GatewaySession.CancelTurn | src/gateway-service.js:3364-3394 | only an unsealed turn on a live worker is cancelled |
| GatewaySession.GatewaySession.CloseBegins | src/gateway-service.js:3555-3601 | a close seals before it waits for the worker |
| GatewaySession.GatewaySession.CloseWith | src/session-queue.js:77-84 | what still waits in the mailbox is rejected, all of it |
| GatewaySession.GatewaySession.CloseEnds | src/gateway-service.js:3601-3619 | the session ends closed, and its record goes exactly when it is to be dropped |
| GatewaySession.GatewaySession.ProviderExit | src/gateway-service.js:4822-4836 | a dead worker's turn is ended, once |
| GatewaySession.GatewaySession.OrphanCancel | src/gateway-service.js:4791-4821 | exactly where it is due, a turn whose Main is gone is ended by the gateway, once |
| GatewaySession.GatewaySession.SyncInput | src/gateway-service.js:3620-3642 | the status mirrors what the worker still waits on, permission before question, and the change is logged exactly when it is news |
| GatewaySession.GatewaySession.StartTurn | src/gateway-service.js:2265-2295 | a prompt that left gets a fresh token and its task says so |
| GatewaySession.GatewaySession.EndTask | src/gateway-service.js:3991-4012 | the session's task ends through the durable commit and is forgotten as active |
| GatewaySession.GatewaySession.FinishTask | src/gateway-service.js:4232-4246 | the outcome follows the status the session is in |
| GatewaySession.GatewaySession.HandleAsk | src/gateway-service.js:3665-3755 | a request is shown as what the session waits for, or the status mirrors the others where its inbox row was not made |
| GatewaySession.GatewaySession.SendPrompt | src/gateway-service.js:2241-2295 | between the stamp and the send nothing awaits: the turn begins exactly when the prompt leaves, and its handle is withdrawn or failed otherwise |
| GatewaySession.GatewaySession.Pump | src/session-queue.js:122-136 | the next command runs its first segment, the worker's side first, and the session stays safe |
| GatewaySession.GatewaySession.Resume | src/gateway-service.js:2215-2295 | the command that has the mailbox runs its next segment, however it goes, and the session stays safe |
| WorkerRequests.PendingReadDifferently | src/acp-client.js:703-709 | in every run no two pending requests have ids that read the same, and each is in at most one map |
| WorkerRequests.SameReadingIsSameText | src/acp-client.js:1843-1854 | two ids a client may hold read the same exactly when their texts are equal |
| WorkerRequests.AnsweredOnce | src/acp-client.js:526-582 | no request is answered twice, by a response, a cancel, a clear or its handler |
| WorkerRequests.RunsWhatWasShown | src/acp-client.js:526-565 | in every run, Main's answer under an id runs an operation if and only if one waits there for that session and the option given allows it; it runs exactly that one, once, and it is the one Main was last shown under what the id reads as |
| WorkerRequests.OperationAnswered | src/acp-client.js:526-548 | an answer to a waiting operation runs it exactly if the option allows it, and otherwise answers the request; either way it waits no more; for another session it changes nothing |
| WorkerRequests.PermissionAnswered | src/acp-client.js:549-565 | a permission request is answered once, for its session and with an option that was offered or none |
| WorkerRequests.QuestionAnswered | src/acp-client.js:566-582 | and so is a question |
| WorkerRequests.AskedWaits | src/acp-client.js:710-801 | a request waits for Main exactly if it was not decided at once, there is room, it is not too large and Main was told; else it is answered |
| WorkerRequests.OperationWaits | src/acp-client.js:1345-1364 | an operation waits for Main exactly if it has not settled, it and its bytes have room, and Main was told; else it is answered |
| WorkerRequests.ReusedIsRefused | src/acp-client.js:658-689 | a request under an id in use, or one that reads the same, is answered and changes nothing else |
| WorkerRequests.ArrivalDoes | src/acp-client.js:658-689 | any other takes its id, and one of the session's places where it is bounded; past the limit it is answered |
| WorkerRequests.HandlerEnds | src/acp-client.js:802-814 | at its end a request gives back its id and its place |
| WorkerRequests.FailEmpties | src/acp-client.js:1648-1680 | with the worker gone nothing waits, and no answer leaves |
| WorkerRequests.ClearForgets | src/acp-client.js:508-525 | a cleared session has no handler and no count |
| WorkerRequests.RunCaps | src/acp-client.js:1569-1603 | pending requests stay within the session, provider and byte limits |
| WorkerRequests.NothingLeft | src/acp-client.js:453-472 | after a cancel or a clear nothing of the session waits for Main |
| WorkerRequests.NextSafe | src/acp-client.js:658-689 | every event keeps the bookkeeping sound |
| AcpClient.AcpClient.IdInUse | src/acp-client.js:703-709 | whether a request is pending under the id or one that reads the same |
| AcpClient.AcpClient.PendingSessionInput | src/acp-client.js:438-452 | the counts are those of the session's requests in each map |
| AcpClient.AcpClient.RequirePendingInputCapacity | src/acp-client.js:1569-1580 | room exactly while the session's and the provider's limits have any |
| AcpClient.AcpClient.RequirePendingOperationBytes | src/acp-client.js:1591-1603 | room exactly while the byte limits have any |
| AcpClient.AcpClient.RespondPermission | src/acp-client.js:526-565 | an answer, an approval or a refusal, of the request under that very id and session only |
| AcpClient.AcpClient.RespondElicitation | src/acp-client.js:566-582 | a question is answered, and no longer pending |
| AcpClient.AcpClient.CancelSession | src/acp-client.js:453-472 | everything of the session that waits is answered, nothing else is, and nothing of it waits any more |
| AcpClient.AcpClient.ClearSession | src/acp-client.js:508-525 | the same, and the session's handler and count go |
| AcpClient.AcpClient.AdmitClientRequest | src/acp-client.js:802-814 | admitted exactly below the limit, and counted |
| AcpClient.AcpClient.Dispatch | src/acp-client.js:658-689 | an arriving request is refused under an id in use or past the limit, decided, run or left with Main, and the client stays sound and within its limits |
| AcpClient.AcpClient.AskMain | src/acp-client.js:710-801 | a request not decided at once, for which there is room, is registered before Main is told, and withdrawn exactly where telling fails |
| AcpClient.AcpClient.RunProtectedOperation | src/acp-client.js:1308-1369 | an operation not settled waits for Main exactly where there is room and Main could be told, and is answered otherwise |
| Approvals.EachApprovalOnce | src/acp-client.js:1474-1528 | over any run each approval lets through at most one command, or one write of each file it named, of exactly what Main approved; never more than 64 are held |
| Approvals.CoversOneThing | src/acp-client.js:1489-1528 | what an approval covers is one command line in one directory and environment, or of each file one write, of one content where it showed diffs |
| Approvals.CoversWhatItShows | src/acp-client.js:1489-1528 | and it covers the command it shows, and the write of each file it names, where it showed diffs exactly if they make that content |
| Approvals.CommandGoesOnce | src/acp-client.js:1489-1528 | an approved command goes once and no second time |
| Approvals.SpendsTheOldest | src/acp-client.js:1489-1528 | an operation is let through exactly if an approval held covers it; the oldest is spent, whole for a command, and for a write by that file alone |
| Approvals.NewestAreHeld | src/acp-client.js:1474-1488 | the newest 64 are held, in their order |
| Approvals.DiffMakes | src/acp-client.js:1930-1958 | a diff without old text makes the file its new text, so does one whose old text is the whole file, and any other replaces the only occurrence or fails |
| Approvals.DiffsInOrder | src/acp-client.js:1930-1946 | up to 64 diffs are made in order, each of what those before it left |
| Approvals.WritesWhatWasShown | src/acp-client.js:1489-1528 | a write spent on an approval that showed diffs has exactly the content those diffs make of the file |
| Approvals.ReplacesTheOnlyOccurrence | src/acp-client.js:1954-1958 | a snippet edit takes effect if and only if the old text occurs exactly once, overlaps counted |
| Approvals.IsApprovedContent | src/acp-client.js:1930-1946 | approved exactly when applying every diff in order gives the content |
| Approvals.OperationGrants.AddOperationGrant | src/acp-client.js:1474-1488 | an approval more, and past the limit the oldest goes |
| Approvals.OperationGrants.ConsumeGrant | src/acp-client.js:1489-1528 | covered exactly when some approval held covers the operation; the first one that does is spent |
| ShellWords.TokenizePlainLine | src/acp-client.js:2066-2096 | the index loop gives the fields of the line, or nothing where it may mean more than its words |
| ShellWords.WordsAreTheShells | src/acp-client.js:2043-2096 | whenever it answers, the words are those of POSIX token recognition and quote removal |
| ShellWords.DisplayRoundTrips | src/acp-client.js:2242-2246 | what Main reads tokenizes back to the words if and only if no word holds a single quote, shell syntax or an odd blank; else to nothing |
| ShellWords.DisplayIsTheShells | src/acp-client.js:2236-2246 | a shell makes of what Main reads the words it spells, whatever they hold, if and only if none of those without quotes holds an equals sign |
| ShellWords.SpelledExactly | src/acp-client.js:2242-2246 | a word is spelled without quotes exactly where it is not empty and holds letters, digits and ten other characters alone |
| ShellWords.SyntaxIsRefused | src/acp-client.js:2035-2075 | a line with any operator, expansion, escape, comment or odd blank is refused, wherever it stands |
| ShellWords.OthersAreWords | src/acp-client.js:2035-2096 | and no other character is |
| MainStatus.HeldExactly | src/main-status.js:125-182 | at rest an entry exists exactly while a connection, a blocked wait or a grace holds it, counts the live connections that named it, and is in grace only while connected |
| MainStatus.WaitingExactly | src/main-status.js:158-190 | in every run a Main is listed as waiting if and only if a wait of it is blocked or its grace lasts, with exactly the tasks these watch, each once |
| MainStatus.RunBlocked | src/main-status.js:82-107 | the waits held for a Main are, of every history of events, those blocked and not yet answered |
| MainStatus.SinceIsLastChange | src/main-status.js:158-182 | in every run, a Main is listed so since the event that made it wait or cease to |
| MainStatus.BlockDoes | src/main-status.js:82-96 | a blocked wait takes the place of any under its handle, ends the grace and touches no other Main |
| MainStatus.CloseDoes | src/main-status.js:97-107 | an answered wait goes; a heartbeat leaves the Main in a grace for what it watched, or what the grace before did, while it is connected; any other answer ends the grace |
| MainStatus.GraceDoes | src/main-status.js:108-157 | another call ends the grace, and a timer the one it was set for and no later one |
| MainStatus.DetachDoes | src/main-status.js:59-74 | a closed connection names nothing more, no wait changes, and the grace ends exactly where no connection is left |
| MainStatus.AttachDoes | src/main-status.js:46-58 | a connection names a Main once, up to 1024 of them |
| MainStatus.ConsumerConverges | src/main-status.js:119-124 | a consumer that keeps the highest revision per Main, of all events and any list replies in any order and number, ends with exactly the list |
| MainStatus.RunRests | src/main-status.js:45-190 | every run of events comes to rest after each |
| MainStatus.SettleRests | src/main-status.js:158-182 | settling leaves the entry and what was reported of it in agreement |
| MainRegistry.MainRegistry.Settle | src/main-status.js:158-190 | reported only when what is read of the entry changed, with a revision higher than any before |
| MainRegistry.MainRegistry.Attach | src/main-status.js:46-58 | a connection counts once for each Main it names |
| MainRegistry.MainRegistry.Detach | src/main-status.js:59-74 | a closed connection lets go of every Main it named, in whatever order they are visited |
| MainRegistry.MainRegistry.BlockWait | src/main-status.js:82-96 | a blocked wait holds the entry and ends its grace |
| MainRegistry.MainRegistry.CloseWait | src/main-status.js:97-107 | an answered wait lets go; a heartbeat starts a grace where a connection remains |
| MainRegistry.MainRegistry.Activity | src/main-status.js:108-118 | a call ends the grace |
| MainRegistry.MainRegistry.GraceEnds | src/main-status.js:139-157 | only the grace the timer was set for ends |
| Ustar.PathRoundTrips | scripts/runtime-release-lib.js:292-301 | prefix and name fit their fields and rejoin to the path, if and only if it is not the one kind that loses its slash |
| Ustar.NumberOfOctal | scripts/runtime-release-lib.js:286-291 | an octal field reads back as the number written |
| Ustar.FitsOctalExactly | scripts/runtime-release-lib.js:286-291 | a number fits a field exactly when it is below that power of eight |
| Ustar.ChecksumFits | scripts/runtime-release-lib.js:303-325 | the checksum always fits six octal digits |
| Ustar.HeaderRoundTrips | scripts/runtime-release-lib.js:303-325 | a reader of the header gets path, type, mode, size and link target back; the checksum verifies; the block is not all zero |
| Ustar.HeaderLayout | scripts/runtime-release-lib.js:303-325 | the header field by field at its offset, with its bytes, as the ustar format has it |
| Ustar.PathSplits | scripts/runtime-release-lib.js:292-301 | a path up to 100 bytes is written whole, a longer one split at the last slash that lets both halves fit, and refused exactly where there is none |
| Ustar.ArchiveLayout | scripts/runtime-release-lib.js:327-346 | each entry is its header, its content and zeros up to the next block, and the archive ends with two blocks of zeros |
| Ustar.ArchiveAligned | scripts/runtime-release-lib.js:327-346 | every archive is a multiple of 512 bytes |
| Ustar.ArchiveRoundTrips | scripts/runtime-release-lib.js:327-346 | a reader of the archive gets back the entries, contents included |
| Ustar.SlashIsLost | scripts/runtime-release-lib.js:292-301 | the one kind of path comes back without its slash |
| TarWriter.WriteString | scripts/runtime-release-lib.js:280-285 | the value goes to its field and nowhere else, or is refused for its length |
| TarWriter.WriteOctal | scripts/runtime-release-lib.js:286-291 | the field holds the digits and its end, or the number is refused |
| TarWriter.TarHeader | scripts/runtime-release-lib.js:303-325 | a header for every entry the format can hold, a refusal for any other |
| TarWriter.CreateArchive | scripts/runtime-release-lib.js:327-346 | the blocks of all entries and the end, or a refusal if any cannot be held |
| TarWriter.GzipOsPin.Flush | scripts/runtime-release-lib.js:348-376 | in whatever pieces a stream came, it leaves whole with its tenth byte pinned |
| TarWriter.PinnedTenth | scripts/runtime-release-lib.js:348-376 | only the tenth byte of a stream is another |
| Inbox.SetStablePayloadBytes | src/gateway-service.js:5539-5545 | ends from any start, at the record's own length with that number in it if and only if the record did not say -1 |
| Inbox.EvictionKeepsNewest | src/gateway-service.js:4314-4334 | eviction removes only resolved rows of its root, leaves the limit of them at most, and none older than one it removed |
| Inbox.EvictsInOrder | src/gateway-service.js:4314-4334 | of two rows resolved at once the one that came first goes first |
| Inbox.AdmitsExactly | src/gateway-service.js:4443-4475 | a row is let in if and only if the inbox stays within every budget with it |
| Inbox.ResolvesOne | src/gateway-service.js:4476-4496 | resolving settles the one pending row with that id, in its place, and no other |
| Inbox.DigitsExactly | src/gateway-service.js:5539-5545 | how many bytes a number takes |
| Inbox.RunBudgeted | src/gateway-service.js:4443-4475 | over every run pending rows stay within the item, session and root budgets |
| Inbox.Inbox.InsertInboxRow | src/gateway-service.js:4435-4475 | a row states its own length, and goes in exactly where the three budgets have room |
| Inbox.Inbox.EvictInboxHistory | src/gateway-service.js:4314-4334 | the oldest resolved rows past the limit go, and it says whether any did |
| Replay.BoundReplay | src/gateway-service.js:5448-5473 | ends; every lane keeps a suffix of its candidates in order, and the total is what round robin shares out of the budget |
| Replay.NewestCosts | src/gateway-service.js:5455-5463 | what is charged is the serialized bytes and one separator for each event |
| Replay.RoundRobinIsUnique | src/gateway-service.js:5440-5447 | there is only one way to cut every lane in its turn |
| Replay.LocallyMaximal | src/gateway-service.js:5448-5473 | no cut lane's next older event fits what is left |
| Replay.Round | src/gateway-service.js:5448-5473 | after a round all lanes still open have kept equally many |
| Attention.KeysAreOrdered | src/attention.js:46-51 | compareKeys is a total order |
| Attention.PageIs | src/attention.js:53-60 | a page goes on after the position without a gap; an exhausted list keeps its position |
| Attention.PageTakes | src/attention.js:53-60 | of the items there, a page takes exactly those that its position passes |
| Attention.EachOnceInOrder | src/gateway-service.js:3042-3080 | however the two lists change between calls: items come in order, none twice, and when there is no further cursor an item there from some call on has come if and only if it came before or lay past the position then |
| Attention.NothingMissed | src/attention.js:40-44 | where a list gains only larger keys, every item still there has come |
| Attention.SameMillisecondIsMissed | src/attention.js:40-44 | two requests of one millisecond, the later with the smaller id, show that the code does not ensure that |
| Attention.FixedEnds | src/gateway-service.js:3042-3080 | paging lists that stay as they are returns them from the front and ends with the call that first reaches the end of both |
| DirectoryWalk.RealDirectory | src/grok-sandbox.js:66-110 | ends on every tree; the answer, refusals included, is pathname resolution's along root's links alone on the tree the walk leaves, which is the one it found grown by directories of this user, and grown only where something was missing; it fails to make a directory only where resolution misses one |
| DirectoryWalk.ResolveJoins | src/grok-sandbox.js:91-101 | putting a link's target in front of what is left resolves as the link does |
| DirectoryWalk.RealIsCanonical | src/grok-sandbox.js:57-65 | the directory is this user's, no prefix of its path is a link, and the kernel's resolution of the given path leads to it |
| DirectoryWalk.OnlyRootsLinks | src/grok-sandbox.js:111-118 | every link followed is one only root could have made, none at all without a uid or as root, and following any link would have led to the same place |
| DirectoryWalk.FollowsExactly | src/grok-sandbox.js:111-118 | whose links are followed, bit by bit: root's, for another user, in a directory of root's that its group and others may not write or that is sticky |
| DirectoryWalk.LinkIsItsTarget | src/grok-sandbox.js:91-101 | a link is its target put in its place, from the root or from the link's directory, and what follows is applied where that leads |
| DirectoryWalk.UpAgain | src/grok-sandbox.js:73-77 | a name and then two dots change nothing, and above the root there is nothing |
| DirectoryWalk.AnswersExactly | src/grok-sandbox.js:102-110 | a directory exactly where resolution reaches one of this user's, a refusal of another's, and otherwise what resolution stuck at |
| DirectoryWalk.ComponentsExactly | src/grok-sandbox.js:119-121 | the names of a path are those of its halves at any slash, and none for the empty string and the dot |
| DirectoryWalk.GrownResolves | src/grok-sandbox.js:80-89 | making directories changes no resolution that missed nothing |
| DirectoryWalk.SpellingRoundTrips | src/grok-sandbox.js:119-121 | a path's string splits into the path's names again |
| DirectoryWalk.MoreLinks | src/grok-sandbox.js:92-93 | the limit on links changes only whether the directory is reached, not which |
| JsonLock.RunSafe | src/atomic-json.js:28-57 | for any number of processes, failing or crashing at any step: at most one is between creating and removing its lock; the file holds the initial document with the committed updates applied in commit order; every call that succeeded is among them, none twice |
| JsonLock.UpdatesStay | src/atomic-json.js:46-51 | no update is lost later: commits stay, and through a power loss those of every call that returned success |
| JsonLock.EmptiesExactly | src/atomic-json.js:93-139 | the file a rename replaced is emptied exactly where another name holds it and the path does not, and no other file is touched |
| JsonLock.StaleLockStays | src/atomic-json.js:28-30 | a lock a dead process left is never stolen, and the file holds what it held |
| JsonLock.ReturnFreesLock | src/atomic-json.js:52-56 | a call that returns has removed its lock |
| JsonLock.LockIsHeld | src/atomic-json.js:28-56 | in every run without a power loss the lock is there if and only if one call is between creating and removing it or died there |
| JsonLock.RefusedExactly | src/atomic-json.js:34-39 | so a new call is refused exactly then, and gets the lock otherwise |
| JsonLock.UndisturbedGoesThrough | src/atomic-json.js:31-57 | a call that finds no lock and nothing disturbs commits its update, leaves it in the file and the lock free; where its update throws, file and lock are as they were |
| JsonLock.UnsyncedIsLost | src/atomic-json.js:59-78 | without a directory sync a power loss can bring the replaced file back emptied |
| JsonLock.RightIffSynced | src/atomic-json.js:59-78 | the file is right after every run, power losses included, if and only if directories can be synced |
| JsonLock.NextKeeps | src/atomic-json.js:93-139 | every step keeps it so, the emptying of a file others hold a link to included |
| JsonLock.JsonFile.UpdateJsonFile | src/atomic-json.js:31-57 | with others at work between any two steps, the call returns exactly the document it committed, its update of what was committed before; where it returns or throws after cleaning up, the lock is free |
| Ndjson.NdjsonReader.HandleData | src/ndjson.js:10-21 | for every partition of a stream into chunks the lines are those of the stream split on LF, one CR dropped, empty ones skipped, closed with one overflow exactly when a line was too long |
| Ndjson.NdjsonReader.Append | src/ndjson.js:23-33 | never more than the cap is buffered |
| Ndjson.NdjsonReader.EmitLine | src/ndjson.js:35-41 | the buffered line is emitted and the next one starts |
| Ndjson.LinesOfMore | src/ndjson.js:10-21 | a line break more adds exactly the line before it |
| Ndjson.FramesComeBack | src/ndjson.js:10-41 | lines framed with LF or CR LF come back as they were, the empty ones left out, and nothing of what is not ended yet |
| Ndjson.OverflowStays | src/ndjson.js:23-33 | past a line too long nothing more is emitted |

## Left out

- Accumulator.BoundedUtf8Text.ToString: returns the scalar values; decoding malformed bytes to U+FFFD is not modelled, and no malformed bytes arise.
- TextHead.Utf8ByteHead: returns bytes; the UTF-16 string the code hands back is their decoding.
- TaskLedger.ToldIsFinal: does not cover the report that an outcome could not be stored, because after a crash that one is replaced, as ToldIsFinalExactly says.
- TurnSafety.SealedOnce: is per process life, because the turn id is saved and its seal is not, so a close after a restart seals the earlier life's turn again; its task has already ended.
- TurnSafety.NoRivalTurn: is per process life, as above.
- TurnSafety.ClosedIsFinal: does not span a crash, because a record that was not saved comes back as it was before.
- TurnSafety.ActiveHasTurn: leaves out the time a close waits for the worker with the turn already sealed.
- TurnSafety.MovesAreEdges: does not claim that no illegal move is ever attempted; against an arbitrary worker it may be, and is then refused and counted.
- WorkerRequests.OperationAnswered: an answer to the worker is its request's number and whether it left; what the answer says is left out.
- WorkerRequests.RunCaps: does not cover the count of client requests of a session across clearSession, which resets it while handlers may still run.
- WorkerRequests.SameReadingIsSameText: number ids are given by their JavaScript text, and which texts are numbers' is a parameter.
- ShellWords.WordsAreTheShells: goes one way, because the tokenizer refuses lines the shell would split plainly too.
- MainRegistry.MainRegistry.Settle: the list's filter by requester and the normalisation of callers to keys are not modelled, and times are parameters.
- Ndjson.NdjsonReader.HandleData: does not cover a re-entrant close inside onLine; decoding a line to a string is left out.
- DirectoryWalk.RealDirectory: the tree changes only by the walk itself, so mkdir never finds what lstat did not, and may fail; paths between steps are sequences of names; Windows separators and the umask are left out.
- DirectoryWalk.OnlyRootsLinks: search permission on directories is not modelled.
- JsonLock.RunSafe: does not cover a power loss where directories cannot be synced, because there it fails; what JSON a document is written as is left out.
- Inbox.SetStablePayloadBytes: the record's other fields are given by their serialized length.
- Inbox.Inbox.EvictInboxHistory: handles one root; maintenance does the same for every root in turn.
- Attention.EachOnceInOrder: the cursor's base64 and JSON form is left out, and items are their keys and a body.
- Attention.NothingMissed: takes it as given that a list gains only larger keys, because the code does not ensure it within one millisecond.
- TarWriter.CreateArchive: collecting entries from a directory, normalizedMode (a constant per type) and gzip are left out.
- Approvals.EachApprovalOnce: how a request's approval is derived (paths, working directory, identity of a directory) and reading the current file are parameters.
- AcpClient.AcpClient.AskMain: which requests are decided without Main, path checks and terminals are a free choice.
- TaskStore.TaskStore.WaitForTerminal: timeouts, time to live, seen marks, links, result artifacts and running without a state store are left out.
- GatewaySession.GatewaySession.StartTurn: attaching the turn to its task and moving the task are one step with it; the release of a reservation is one step with the end of its command.
- GatewaySession.GatewaySession.Pump: admission, unloading, retirement and the crash are steps of the protocol without a method.
- Stopping clients at shutdown, session retention timers, provider starts and configuration changes beyond their place in the mailbox.
- Resolving and interrupting inbox rows beyond their effect on the budgets, compaction of recovered rows, projections of rows and events.
- Sockets, processes, signals, timers, MCP transport, the installer, and the release, monitor and benchmark scripts: plumbing.
- Response profiles, session rings, and the on-disk format of the state store.
