# xacpx: verified models of its protocols

xacpx runs coding agents as Bots, alone or in Groups, over the ACP protocol. This
project models the parts of it where one function at a time says little: protocols
that interleave or crash, loops over byte streams, and length arithmetic. Each
module follows one source file or one protocol that spans several.

Check everything with `dafny verify dfyconfig.toml`.

| module | what it models |
|---|---|
| `LifecycleGate` | per-Bot gates and the state mutex: nested ordered acquisition of any number of `run` and `runAll` calls |
| `GroupMembership` | `updateGroup` against Group creation and deletion, Bot deletion and removal |
| `BotRemoval` | the removal record: its transitions, and its reading back from storage |
| `BotRevision` | the preview token of a removal |
| `RemovalProtocol` | Bot removal over two stores, one step per store write, with crashes between any two |
| `AdapterLifecycle` | adapter install, recovery and the two-scan garbage collector over a directory tree |
| `GroupMemberRuntime` | binding rows and sessions of Group members, linked on two axes |
| `BridgeScheduler` | per-session request lanes whose state is reclaimed |
| `BridgeRpc` | the table of bridge-originated requests |
| `EnsureSession` | session creation under one shared deadline |
| `AcpFraming` | the ACP stdout pump |
| `AcpSplit` | splitting an oversized text update, and the guard around it |
| `BoundJson`, `BoundJsonLaws` | bounding a JSON value under a shared budget |
| `HermesShim` | the one-frame stream rewriter |
| `AdapterCommand` | command splitting against the two quoters |
| `CollaborationPrompt` | the Group turn prompt and its length |
| `ClaudeEnvironment` | the Claude environment and the overlay that reproduces it |
| `LexOrder`, `Utf16`, `Common`, `Whitespace` | string order, UTF-16 text with JSON escaping (section 7 of RFC 8259), shared types |

Protocols are step systems: a state, the actions of every participant, an
invariant, and theorems over every run. Code that changes state in place is a class
or a method with a loop, proved equal to a function on values; the laws are lemmas
about that function. UTF-16 code units are numbers, because a Dafny `char` cannot be
a surrogate.

## Where the code and its promises differ

The models follow the code. These are proved as stated:

- `runAll` takes no gate at all when the list names the empty id
  (`LifecycleGate.RunAllHoldsEveryListedGate`).
- `createGroup` does not ask the removal barrier, so a Bot under removal can become a
  member. Runs without such a step keep every member's profile
  (`GroupMembership.MembersKeepProfiles`), and every run that reached such a member can
  go on until the profile is gone (`GroupMembership.BarredMemberLosesProfile`).
- A removal can get stuck. After a crash it can still be brought to its end if and only
  if the retire barrier is not down over a record that is not `deleting`
  (`RemovalProtocol.RemovalEndsExactly`). One way there: a `preview` reads the record
  while the write of a begin is under way, waits behind it for the state mutex, and
  overwrites it; the daemon then dies behind the retire barrier
  (`RemovalProtocol.PreviewRaceStrands`). Another: a second `remove` of the same request
  notes an indeterminate failure before the first one writes that barrier
  (`RemovalProtocol.SecondRemoveStrands`).
- A restart purges a retired record as residue. If the daemon died between the write that
  drops the profile and the last write of the operation row, the Bot is then unknown to
  every later `remove`, and the row stays open for good
  (`RemovalProtocol.RestartFreezes`, `RemovalProtocol.PurgeLosesOperation`). Between
  calls, an open operation can still be completed if and only if the profile is there,
  the removal is not stuck, and no other request holds the record
  (`RemovalProtocol.OperationCompletesExactly`).
- Cleanup can run with other options than the record it wrote carries: exactly when the
  record it found blocked already and stored another value
  (`RemovalProtocol.CleanupCarriesExactly`). A crash between the record write and the
  first operation row opens that way (`RemovalProtocol.RetryCanDriftFromRecord`).
- A `begin` on a record with an empty request id takes it over
  (`BotRemoval.RemovalIsFixedExactly`).
- A cancel frame that cannot be written leaves its request unsettled
  (`BridgeRpc.TimerSettlesExactly`).
- A long `stdout`, `stderr` or `diff` value met with no character to spare is kept whole
  behind the marker, because `slice(-0)` is the whole string
  (`BoundJson.ShortenedExactly`).
- `boundJsonValue` drops an own key `__proto__` (`BoundJsonLaws.KeptExactly`).
- `splitTextUpdate` can fail on text that would fit when the skeleton leaves room for
  fewer than 18 characters (`AcpSplit.SeventeenIsTooLittle`, and for any room
  `AcpSplit.SplitsInAnyRoom`), or with a chunk size of one (`AcpSplit.SplitsExactly`).
- Splitting a command drops empty tokens (`AdapterCommand.RoundTripExactly`), and the
  JSON-quoted launch command differs from its `argv` when a path has a control character
  or a lone surrogate (`AdapterCommand.CommandAgreesExactly`).
- A comment gives 26,000 characters for the whole prompt; the bound is the contract plus
  25,176, so it holds for contracts of at most 824 characters, and the shipped one has
  917 (`CollaborationPrompt.TwentySixThousandExactly`).
- Without its provenance the Claude overlay loses an intended value that equals the
  inherited one (`ClaudeEnvironment.ValueDifferenceExactly`).

## Model

| member | source | states |
|---|---|---|
| `LexOrder.Sorted` | src/bots/bot-lifecycle-gate.ts:29-34 | deduplicating and sorting gives a strictly ascending list of the same ids |
| `LifecycleGate.RunAllPlan` | src/bots/bot-lifecycle-gate.ts:29-41 | the gates nest in strictly ascending order and all come from the list |
| `LifecycleGate.RunAllHoldsEveryListedGate` | src/bots/bot-lifecycle-gate.ts:29-41 | `runAll` holds every listed gate if and only if the list does not name the empty id; otherwise it holds none |
| `LifecycleGate.SamePlan` | src/bots/bot-lifecycle-gate.ts:29-41 | order and repetition in the list do not change what is locked |
| `LifecycleGate.StepKeepsInv` | src/orchestration/async-mutex.ts:1-18 | every step of every task keeps queues and holdings consistent |
| `LifecycleGate.RunInv` | src/bots/bot-lifecycle-gate.ts:11-41 | the invariant holds in every state of every run |
| `LifecycleGate.HeldGatesDisjoint` | src/bots/bot-lifecycle-gate.ts:11-41 | no two tasks ever hold overlapping gate sets |
| `LifecycleGate.SomeTaskSteps` | src/bots/bot-lifecycle-gate.ts:29-41 | from any unfinished task a chain along strictly rising gates reaches one that can step |
| `LifecycleGate.DeadlockFree` | src/bots/bot-lifecycle-gate.ts:11-41 | in every reachable state with an unfinished task some task can step |
| `LifecycleGate.StepLowersWork` | src/bots/bot-lifecycle-gate.ts:11-41 | every step lowers the work left |
| `LifecycleGate.EveryCallEnds` | src/bots/bot-lifecycle-gate.ts:11-41 | without new calls every run is bounded, and where it cannot go on every call has finished |
| `LifecycleGate.FirstInLineEnters` | src/orchestration/async-mutex.ts:4-17 | when nobody holds a gate, the task that may enter it is the head of its queue, and no other |
| `LifecycleGate.AskEntersExactly` | src/bots/bot-lifecycle-gate.ts:11-18 | a call that asks for a gate may enter at once if and only if its queue was empty |
| `LifecycleGate.BotLifecycleGate.Join` | src/bots/bot-lifecycle-gate.ts:11-18 | a call joins the tail of its Bot's mutex, made on first use, as the protocol does; it may enter now exactly when told that it is first; no other gate is touched |
| `LifecycleGate.BotLifecycleGate.Release` | src/orchestration/async-mutex.ts:4-17 | leaving keeps the protocol's invariant, frees the gate, and of all tasks exactly the one it names may enter next; no other gate is touched |
| `GroupMembership.LockedIsRunAll` | src/bots/bot-service.ts:375-378 | the gate set of an edit is what the lifecycle gate takes for that list |
| `GroupMembership.ApplyKeepsInv` | src/bots/bot-service.ts:561-877 | every step of edits, creations, deletions and removals keeps the invariant |
| `GroupMembership.RunInv` | src/bots/bot-service.ts:561-877 | the invariant holds in every state of every run |
| `GroupMembership.CommitHoldsEveryGate` | src/bots/bot-service.ts:664-793 | every commit holds the gate of every Bot in the replaced and in the written membership, and replaces exactly what its cover check saw |
| `GroupMembership.OneEditPastCheck` | src/bots/bot-service.ts:664-756 | two edits of one Group are never both past the cover check |
| `GroupMembership.BareEditFails` | src/bots/bot-service.ts:664-793 | an edit that found no Group never writes |
| `GroupMembership.MembersKeepProfiles` | src/bots/bot-service.ts:561-877 | in every run in which no step creates a Group around a Bot under removal, every member of every Group has its profile in every state |
| `GroupMembership.BarredMemberLosesProfile` | src/bots/bot-service.ts:619-646 | every run that reached a member under removal goes on to a state in which that member has no profile |
| `GroupMembership.RemovedBotStaysMember` | src/bots/bot-service.ts:619-646 | a concrete run that ends with a member without a profile |
| `BotRemoval.ReachableRecordOk` | src/bots/bot-removal.ts:185-282 | over every command sequence a tombstone is there exactly when the record is retired, with the other facts of each phase |
| `BotRemoval.BarrierIsForever` | src/bots/bot-removal.ts:185-282 | no command sequence takes a blocking phase back to previewed, and a retired record never changes |
| `BotRemoval.RetireOnlyFromDeleting` | src/bots/bot-removal.ts:185-282 | the only way into retired is a matching retire of a deleting record |
| `BotRemoval.RemovalIsFixed` | src/bots/bot-removal.ts:185-282 | once removal began no command sequence changes request id, preview revision or either option |
| `BotRemoval.RemovalIsFixedExactly` | src/bots/bot-removal.ts:185-282 | one command keeps the four fields exactly unless a begin takes over an empty request id |
| `BotRemoval.ParseReadsBackExactly` | src/bots/bot-removal.ts:284-387 | parsing a stored record returns it unchanged if and only if it is storable |
| `BotRemoval.ReachableRecordsReadBack` | src/bots/bot-removal.ts:327-387 | every record the service can reach with non-empty fields survives storage |
| `BotRevision.SortKeeps` | src/bots/bot-removal.ts:140-142 | sorting keeps every element and its repetitions, in ascending order |
| `BotRevision.SortsAlikeExactly` | src/bots/bot-removal.ts:140-142 | two lists sort alike if and only if they hold the same elements, repetitions counted |
| `BotRevision.GroupsAlikeExactly` | src/bots/bot-removal.ts:153-159 | the same for Groups, whose members come in any order |
| `BotRevision.RevisionExactly` | src/bots/bot-removal.ts:145-166 | two previews carry one token if and only if they face the same facts, in whatever order these were read |
| `RemovalProtocol.BeginKeepsInv` | src/bots/bot-removal-service.ts:70-134 | barrier first, then record, then operation row: each write keeps the invariant of both stores |
| `RemovalProtocol.CleanKeepsInv` | src/bots/bot-removal-service.ts:144-161 | cleanup steps keep it; only a cleanup that found no open dispatch goes on to retire |
| `RemovalProtocol.RetireKeepsInv` | src/bots/bot-removal-service.ts:163-183 | the retire writes keep it |
| `RemovalProtocol.FinishKeepsInv` | src/bots/bot-removal-service.ts:185-208 | finishing a retired removal after a restart keeps it |
| `RemovalProtocol.FailKeepsInv` | src/bots/bot-removal-service.ts:210-229 | recording a failure, which rewrites the phases, keeps it |
| `RemovalProtocol.PreviewKeepsInv` | src/bots/bot-removal-service.ts:50-68 | a concurrent preview, which may write what it read before another write was done, keeps it |
| `RemovalProtocol.RunInv` | src/bots/bot-removal-service.ts:50-229 | the invariant holds in every state of every run with crashes and restarts |
| `RemovalProtocol.AppStateNeverAhead` | src/bots/bot-service.ts:1094-1115 | where the AppState record blocks work a barrier row exists, so work is refused exactly when there is one |
| `RemovalProtocol.BarrierHolds` | src/bots/bot-removal-service.ts:95-229 | from the first barrier write on every later state refuses work; open dispatches only shrink, and stay empty once a cleanup found none |
| `RemovalProtocol.ProfileDropsAfterCleanup` | src/bots/bot-removal-service.ts:144-208 | the profile is gone only behind a barrier and after a cleanup that found no open dispatch |
| `RemovalProtocol.DropStepIsGuarded` | src/bots/bot-service.ts:440-450 | the write that drops the profile runs behind the barrier with nothing open, and leaves a retired record |
| `RemovalProtocol.RemovalEndsExactly` | src/bots/bot-removal-service.ts:70-229 | in every reachable state between calls with the profile still there, some continuation drops the profile if and only if the retire barrier is not down over a record that is not `deleting` |
| `RemovalProtocol.StrandedForever` | src/bots/bot-removal-service.ts:185-208 | once the retire barrier is down over a record that cannot be retired and no call is left that could change it, every later state of every continuation is blocked for work and keeps the profile |
| `RemovalProtocol.PreviewOverwritesBegin` | src/bots/bot-service.ts:440-450 | a concrete run in which a preview reads the record while the begin's write is under way, queues behind it on the state mutex, and overwrites it |
| `RemovalProtocol.PreviewRaceStrands` | src/bots/bot-removal-service.ts:163-183 | that run, with a crash behind the retire barrier, ends in a state from which no continuation drops the profile |
| `RemovalProtocol.SecondRemoveStrands` | src/bots/bot-removal-service.ts:163-229 | a concrete run of two `remove` calls of one request that ends in such a state without a preview |
| `RemovalProtocol.OperationCompletesExactly` | src/bots/bot-removal-service.ts:70-229 | in every reachable state between calls, some continuation completes an operation that is not completed if and only if the profile is there, the state is not stuck and no other request holds the record; otherwise no continuation changes its row |
| `RemovalProtocol.TombstoneCompletes` | src/bots/bot-removal-service.ts:185-208 | before a restart, with the profile gone and the tombstone still there, a repeated request completes its operation whatever calls are under way |
| `RemovalProtocol.RestartFreezes` | src/bots/bot-service.ts:357-366 | once the profile is gone, a restart leaves every operation that is still open as it is for good |
| `RemovalProtocol.PurgeLosesOperation` | src/bots/bot-removal-service.ts:163-183 | a concrete run with a crash right behind the write that drops the profile ends with an operation that stays `running` |
| `RemovalProtocol.CleanupCarriesExactly` | src/bots/bot-removal-service.ts:90-134 | in every run, a call that cleans up with some options began in that run, and the record it wrote carries these options if and only if the record it found did not block yet, or stored each of them with the same value or left it to be filled in |
| `RemovalProtocol.CrashBeforeOperationRow` | src/bots/bot-removal-service.ts:95-134 | a concrete run that crashes between the record and the operation row |
| `RemovalProtocol.RetryCanDriftFromRecord` | src/bots/bot-removal-service.ts:95-134 | the failing side occurs: after that crash a retry with other flags cleans up with options the record denies |
| `AdapterLifecycle.DecodeIsExact` | src/adapters/adapter-gc.ts:181-221 | a successful decode finds exactly the releases the commands name |
| `AdapterLifecycle.DecodeSucceedsExactly` | src/adapters/adapter-gc.ts:181-221 | it succeeds exactly when every managed command runs an installed release on that release's node |
| `AdapterLifecycle.SameRevisionSameReferences` | src/adapters/adapter-gc.ts:84-106 | two scans of one revision see one reference set, though releases went in between |
| `AdapterLifecycle.RemovedIsUnused` | src/adapters/adapter-gc.ts:41-82 | a removed release was inactive and named by no command in either scan |
| `AdapterLifecycle.ScanReports` | src/adapters/adapter-gc.ts:84-106 | a scan reports the active release and every reference of its environment |
| `AdapterLifecycle.AdapterStore.Stage` | src/adapters/adapter-preinstall.ts:190-217 | staging touches one staging directory, wherever it fails or dies |
| `AdapterLifecycle.AdapterStore.Publish` | src/adapters/adapter-preinstall.ts:218-221 | a release appears whole or not at all |
| `AdapterLifecycle.AdapterStore.Activate` | src/adapters/adapter-preinstall.ts:141-154 | the pointer is the old one or the new one |
| `AdapterLifecycle.AdapterStore.Preinstall` | src/adapters/adapter-preinstall.ts:190-233 | for every pattern of failures and every point of death the store ends safe, other releases are untouched, and success means published and active |
| `AdapterLifecycle.AdapterStore.Recover` | src/adapters/adapter-preinstall.ts:235-261 | recovery keeps releases and a safe pointer, and where it ends leaves no leftovers and no dangling pointer |
| `AdapterLifecycle.AdapterStore.CollectOne` | src/adapters/adapter-gc.ts:55-80 | one target gets the verdict of the two scans and goes only when removed |
| `AdapterLifecycle.AdapterStore.CollectAll` | src/adapters/adapter-gc.ts:55-81 | the store loses exactly the removed targets; each target gets one disposition in order |
| `AdapterLifecycle.AdapterStore.GarbageCollect` | src/adapters/adapter-gc.ts:41-82 | whatever the environment does between scans, the store stays safe and only unused releases go |
| `AdapterLifecycle.AdapterStore.RunHistory` | src/adapters/adapter-preinstall.ts:190-261 | any history of installs, recoveries and collections with failures and deaths keeps the store safe, and every release that an operation loses was collected by it, inactive and named by no command at either scan |
| `AdapterLifecycle.LostWasUnused` | src/adapters/adapter-gc.ts:41-82 | over such a history, a release that was there once and is gone later was collected in between as unused |
| `GroupMemberRuntime.LiveLinkSurvives` | src/bots/bot-runtime-manager.ts:1039-1078 | a live link survives what the rest of the daemon may do while its Topic is active |
| `GroupMemberRuntime.EffectsKeepRely` | src/bots/bot-runtime-manager.ts:787-924 | one effect at a scope is interference that any other scope may rely on if and only if it does not edit a session of that other scope, which it never does while its own Topic is active |
| `GroupMemberRuntime.OperationsKeepRely` | src/bots/bot-runtime-manager.ts:411-457 | so every step that a materialization, a release or an alignment takes at one scope keeps what the others rely on, but for an edit after its Topic stopped being active |
| `GroupMemberRuntime.BotRuntimeManager.ReleaseOwnedSession` | src/bots/bot-runtime-manager.ts:296-352 | a release needs sole ownership, and removes that session only, if it is still the one; a refused release writes nothing |
| `GroupMemberRuntime.BotRuntimeManager.FindOwned` | src/bots/bot-runtime-manager.ts:988-1037 | finds the one owned session, or none where there is none, and fails exactly where ownership is not unique |
| `GroupMemberRuntime.BotRuntimeManager.ReleaseBinding` | src/bots/bot-runtime-manager.ts:296-352 | a conflict changes nothing; only the session of the row is released; after success, with the row read again behind each await, neither row nor owned session is left |
| `GroupMemberRuntime.BotRuntimeManager.EnsureOwned` | src/bots/bot-runtime-manager.ts:718-785 | the returned session is the only owned one and matches execution, policy and worktree; whatever the outcome, a conflict included, all it wrote is a new session and the release of its own sessions with another worktree |
| `GroupMemberRuntime.BotRuntimeManager.Publish` | src/bots/bot-runtime-manager.ts:787-924 | the row is written last, right behind the fence, and is stored and live with the fence holding; every failure writes nothing |
| `GroupMemberRuntime.BotRuntimeManager.Align` | src/bots/bot-runtime-manager.ts:1080-1095 | alignment ends with the requested model and effort on the same live link; a conflict changes nothing |
| `GroupMemberRuntime.BotRuntimeManager.Reuse` | src/bots/bot-runtime-manager.ts:435-452 | the fence is read behind the first await and nothing was written before it; a reused row carries what the turn asked for; only an outdated session is released; a conflict writes nothing |
| `GroupMemberRuntime.BotRuntimeManager.Materialize` | src/bots/bot-runtime-manager.ts:411-457 | while the Topic is active a returned row is stored and linked on both axes to one owned session with the requested model, effort, policy and worktree; membership, active Topic and enabled Bot held at a fence behind which only the publication or an alignment came; unless it reused a row, the fence still holds at return and the row is stored whatever the Topic; every session it released was its own, alone under its logical id and outdated; a conflict wrote at most such a release and a new session |
| `BridgeScheduler.SubmitKeepsInv` | src/bridge/bridge-request-scheduler.ts:15-29 | a submission keeps tails, counters and entries consistent |
| `BridgeScheduler.CleanKeepsInv` | src/bridge/bridge-request-scheduler.ts:31-36 | a clean-up keeps them |
| `BridgeScheduler.RunInv` | src/bridge/bridge-request-scheduler.ts:12-49 | the invariant holds over every interleaving |
| `BridgeScheduler.LaneOrder` | src/bridge/bridge-request-scheduler.ts:25-29 | on one lane of one state object a task starts only after every earlier one ended |
| `BridgeScheduler.SessionLaneOrder` | src/bridge/bridge-request-scheduler.ts:15-49 | one session and lane runs one task at a time in submission order, across deletion and re-creation of its entry |
| `BridgeScheduler.EntryExistsWhileBusy` | src/bridge/bridge-request-scheduler.ts:15-49 | the entry exists exactly while some task on it was not cleaned up |
| `BridgeScheduler.GuardAlwaysHolds` | src/bridge/bridge-request-scheduler.ts:31-36 | at every clean-up the entry is the task's own object |
| `BridgeScheduler.LaneMoves` | src/bridge/bridge-request-scheduler.ts:25-29 | a waiting task leads to one on its lane that runs or can start |
| `BridgeScheduler.BridgeRequestScheduler.Run` | src/bridge/bridge-request-scheduler.ts:15-49 | the call changes counters, tail and entry as the model's submission does and keeps the invariant |
| `BridgeScheduler.BridgeRequestScheduler.Finally` | src/bridge/bridge-request-scheduler.ts:31-36 | the callback counts down and deletes the idle entry as the model's clean-up does and keeps the invariant |
| `BridgeRpc.ApplyKeepsInv` | src/bridge/bridge-server.ts:195-259 | every callback keeps each request in one place, timers and listeners with their entries, and cancel frames with their cancellations |
| `BridgeRpc.StepExtends` | src/bridge/bridge-server.ts:195-259 | a settled promise stays as it is; only a failed cancel write loses a request |
| `BridgeRpc.RunInv` | src/bridge/bridge-server.ts:195-259 | over every run each request is pending, settled once for good, or lost to a failed cancel write; no timer or listener outlives its entry |
| `BridgeRpc.AllSettle` | src/bridge/bridge-server.ts:195-259 | with cancel frames written, every request issued either has its timer armed or has settled |
| `BridgeRpc.TimerSettlesExactly` | src/bridge/bridge-server.ts:204-211 | the timer settles a pending request if and only if its cancel frame can be written |
| `BridgeRpc.IdsNeverRepeat` | src/bridge/bridge-server.ts:202-203 | a new request gets an id that no entry, outcome or frame has used |
| `BridgeRpc.LateResponsesChangeNothing` | src/bridge/bridge-server.ts:252-259 | a response changes the table exactly when its request is pending |
| `BridgeRpc.BridgeServer.RequestDaemon` | src/bridge/bridge-server.ts:195-240 | a request gets its id and its entry, or is rejected without either; a failed send leaves nothing armed |
| `BridgeRpc.BridgeServer.Cancel` | src/bridge/bridge-server.ts:204-220 | timer and abort callbacks do the model's cancellation |
| `BridgeRpc.BridgeServer.SettleDaemonResponse` | src/bridge/bridge-server.ts:252-259 | a response settles its request and cleans up |
| `BridgeRpc.BridgeServer.HandleDisconnect` | src/bridge/bridge-server.ts:242-250 | every pending request is cleaned up and rejected, one by one |
| `EnsureSession.AttemptLength` | src/bridge/bridge-runtime.ts:423-559 | an attempt is at most four spawns plus those that repeat without the verbose option |
| `EnsureSession.BridgeRuntime.Launch` | src/bridge/bridge-runtime.ts:433-441 | a spawn is granted what is left until the deadline and at least 1 ms, and is killed when that is used up |
| `EnsureSession.BridgeRuntime.RunWithVerboseFallback` | src/bridge/bridge-runtime.ts:455-488 | repeats once without the option where it is unknown, and never tries it again |
| `EnsureSession.BridgeRuntime.AttemptEnsureSession` | src/bridge/bridge-runtime.ts:423-559 | at most five spawns in their order; done by the deadline plus 1 ms per spawn after the first and idle time; success exactly when the last spawn exited with zero; a failure went through every stage or met a spawn without an exit, and says what that spawn or the output says |
| `EnsureSession.BridgeRuntime.EnsureSession` | src/bridge/bridge-runtime.ts:395-421 | one retry without a model, exactly when the failure says that a requested model is not advertised; at most nine spawns, and eight once the option is known to fail |
| `EnsureSession.EnsureMany` | src/bridge/bridge-runtime.ts:395-421 | over any number of sessions the verbose option is tried in vain at most once |
| `Utf16.EscapeBounds` | src/adapters/acp-output-guard.ts:506-512 | a JSON string body is at least as long as the text and at most six times |
| `Utf16.EscapeAppends` | src/adapters/acp-output-guard.ts:506-512 | escaping distributes over a cut that separates no surrogate pair |
| `Utf16.EscapeReadsBack` | src/adapters/acp-output-guard.ts:506-512 | a JSON reader recovers every text from its escaped body |
| `AcpFraming.SplitReadsBack` | src/adapters/acp-output-guard.ts:34-74 | splitting at newlines gives back the lines that were terminated, and an unterminated tail last unless it is empty |
| `AcpFraming.EveryStreamIsLines` | src/adapters/acp-output-guard.ts:34-74 | every stream is such lines and a tail |
| `AcpFraming.DeliverExactly` | src/adapters/acp-output-guard.ts:40-47 | delivery fails exactly when some line exceeds the maximum, after delivering precisely the lines before it |
| `AcpFraming.PumpChunk` | src/adapters/acp-output-guard.ts:54-69 | one chunk delivers the lines it completes and keeps the rest open, whatever is still to come |
| `AcpFraming.PumpAcpStdout` | src/adapters/acp-output-guard.ts:34-74 | the pump delivers the split of the whole stream up to the first line that is too long |
| `AcpFraming.ChunkingIsInvisible` | src/adapters/acp-output-guard.ts:34-74 | two chunkings of the same bytes give the same lines and the same outcome |
| `AcpSplit.SafeTextBoundary` | src/adapters/acp-output-guard.ts:342-346 | the cut is at most one unit back and never separates a surrogate pair |
| `AcpSplit.PiecesJoin` | src/adapters/acp-output-guard.ts:305-340 | the pieces join to the text, their bodies to the body of the unsplit frame, and each keeps within chunk size and room |
| `AcpSplit.PairsStayWhole` | src/adapters/acp-output-guard.ts:305-340 | no cut between pieces separates a surrogate pair |
| `AcpSplit.SplitsExactly` | src/adapters/acp-output-guard.ts:305-340 | with room for 18 characters splitting succeeds exactly when the chunk size is at least two, or one with no high surrogate before the last unit |
| `AcpSplit.AcceptedExactly` | src/adapters/acp-output-guard.ts:315-330 | for any room, halving finds a piece if and only if the last one it tries fits |
| `AcpSplit.LeastIsShort` | src/adapters/acp-output-guard.ts:315-330 | that last piece is one unit, or at most three of which the first is a high surrogate |
| `AcpSplit.SplitsInAnyRoom` | src/adapters/acp-output-guard.ts:305-340 | for any room, splitting succeeds if and only if at every offset it arrives at the chunk size moves on and the last piece tried fits |
| `AcpSplit.SeventeenIsTooLittle` | src/adapters/acp-output-guard.ts:305-340 | with room for 17 a concrete text cannot be split |
| `AcpSplit.AcceptPiece` | src/adapters/acp-output-guard.ts:307-327 | halving ends at the first piece whose frame fits, or at none |
| `AcpSplit.SplitTextUpdate` | src/adapters/acp-output-guard.ts:277-340 | the frames are the encoded pieces; empty text and a lost skeleton give none |
| `AcpSplit.GuardAcpStdoutLine` | src/adapters/acp-output-guard.ts:164-212 | a short line passes unchanged, everything delivered is within the limit, a split keeps the whole text, the bounded form comes before the minimal one, and it fails exactly where no form fits |
| `BoundJson.ShortenedShowsTheValue` | src/adapters/acp-output-guard.ts:420-432 | a shortened string shows a true start of the value and, for tail keys only, a true end |
| `BoundJson.ShortenedLength` | src/adapters/acp-output-guard.ts:420-432 | it fills the cap where the marker leaves room; where not, the marker stands alone, or before the whole value of a tail key |
| `BoundJson.ShortenedExactly` | src/adapters/acp-output-guard.ts:420-432 | it is within the cap if and only if it is not a tail key met with nothing to spare |
| `BoundJson.Prioritizes` | src/adapters/acp-output-guard.ts:435-443 | prioritizing keeps every key once |
| `BoundJson.MetaKeysSorted` | src/adapters/acp-output-guard.ts:435-443 | under `_meta` keys are ordered by preference and keep their order within a rank |
| `BoundJsonLaws.BoundContext.BoundString` | src/adapters/acp-output-guard.ts:411-433 | the result is the specified one and its length is what the budget loses |
| `BoundJsonLaws.BoundContext.BoundJsonValue` | src/adapters/acp-output-guard.ts:367-409 | value and budget after the recursive call are those of the specification |
| `BoundJsonLaws.SumPermutes` | src/adapters/acp-output-guard.ts:400-408 | the cost of an object does not depend on the order of its keys |
| `BoundJsonLaws.KeptExactly` | src/adapters/acp-output-guard.ts:367-409 | a value within every limit and cheaper than the budget costs exactly its weight (16 per scalar, length per string, 2 per container), and comes back unchanged if and only if no object in it has an own `__proto__` |
| `BoundJsonLaws.AlwaysTrimmedAndShaped` | src/adapters/acp-output-guard.ts:367-433 | every result is the input cut down, nested at most maxDepth, with at most maxArrayItems + 1 items and maxObjectKeys + 1 keys |
| `HermesShim.StripsInitializeOnce` | src/adapters/hermes-shim.ts:85-120 | only an initialize response is stripped, and it stays one with nothing left to strip |
| `HermesShim.StripsOneField` | src/adapters/hermes-shim.ts:85-102 | `resume` is gone and every path beside it reads as before |
| `HermesShim.OnlyTheFirstInitialize` | src/adapters/hermes-acp-shim.ts:41-70 | the first initialize response alone is rewritten; all bytes before and after pass through |
| `HermesShim.NothingToRewrite` | src/adapters/hermes-acp-shim.ts:41-79 | without one the output is the input, unterminated tail included |
| `HermesShim.ShimTwice` | src/adapters/hermes-acp-shim.ts:37-79 | two shims in a row do what one does, if what the shim prints for a line is one line that reads back as what was printed |
| `HermesShim.Interposer.InterceptStdout` | src/adapters/hermes-acp-shim.ts:41-72 | after each chunk the output is right for what was received, and only an unterminated line is held back |
| `HermesShim.Interposer.End` | src/adapters/hermes-acp-shim.ts:74-79 | after the flush the output is the shim of everything received |
| `HermesShim.RunShim` | src/adapters/hermes-acp-shim.ts:37-79 | the concatenated output depends on the concatenated input alone |
| `AdapterCommand.SplitAdapterCommand` | src/adapters/adapter-catalog.ts:172-198 | the loop with its flags computes the front-to-back reading, including the nothing it gives for an open quote or a final bare backslash |
| `AdapterCommand.BodyReads` | src/adapters/hermes-shim.ts:50-52 | inside double quotes the quoted form reads as the token |
| `AdapterCommand.SplitUndoesJoin` | src/adapters/hermes-shim.ts:72-78 | splitting a command of quoted and bare words gives the words back, but for the empty ones |
| `AdapterCommand.RoundTripExactly` | src/adapters/adapter-catalog.ts:172-198 | the round trip holds exactly for lists without an empty token |
| `AdapterCommand.LaunchCommandReads` | src/adapters/adapter-preinstall.ts:336-339 | what the splitter makes of any JSON-quoted pair of paths |
| `AdapterCommand.CommandAgreesExactly` | src/adapters/adapter-preinstall.ts:336-339 | `command` and `argv` agree if and only if both paths are non-empty, without control characters and lone surrogates |
| `CollaborationPrompt.Prefix` | src/bots/collaboration-prompt.ts:85-89 | a true prefix within the limit that splits no pair and loses at most one unit more |
| `CollaborationPrompt.Suffix` | src/bots/collaboration-prompt.ts:92-96 | the same for a true suffix |
| `CollaborationPrompt.DecimalReadsBack` | src/bots/collaboration-prompt.ts:123-125 | the written count reads back as the number |
| `CollaborationPrompt.DecimalGrows` | src/bots/collaboration-prompt.ts:142-144 | a larger count is never written shorter, so the reserve covers the marker |
| `CollaborationPrompt.NoTaskIsNeverShortened` | src/bots/collaboration-prompt.ts:145-154 | the task-shortening branch never runs without a task |
| `CollaborationPrompt.CutKeepsTheEnd` | src/bots/collaboration-prompt.ts:157-158 | a cut context keeps a true end that splits no pair and announces an exact count of at least one |
| `CollaborationPrompt.EvidenceIsBounded` | src/bots/collaboration-prompt.ts:128-159 | the evidence is at most 24,000 long, and is whole, whole behind a shortened task, or cut at its head |
| `CollaborationPrompt.EscapesControlsExactly` | src/bots/collaboration-prompt.ts:98-107 | escaping changes a value if and only if it holds a control character or a line end |
| `CollaborationPrompt.LayerBReadsBack` | src/bots/collaboration-prompt.ts:162-181 | layer B is at most 1,100 long and reads back line by line as its heading and ten titled facts, or as a cut of them and the truncation line; no value adds a line |
| `CollaborationPrompt.PromptIsBounded` | src/bots/collaboration-prompt.ts:162-188 | the prompt is at most the contract and 25,176 more |
| `CollaborationPrompt.BoundIsMet` | src/bots/collaboration-prompt.ts:162-188 | some snapshot and evidence take all of that bound |
| `CollaborationPrompt.TwentySixThousandExactly` | src/bots/collaboration-prompt.ts:64-69 | every prompt is within 26,000 if and only if the contract is at most 824 long |
| `ClaudeEnvironment.SetKeepsDerived` | src/adapters/claude-settings-policy.ts:408-418 | writing a value keeps the draft equal to the inherited environment outside what provenance names |
| `ClaudeEnvironment.ClearKeepsDerived` | src/adapters/claude-settings-policy.ts:394-406 | so does removing the control key |
| `ClaudeEnvironment.SpawnEnvironment.SetEnvironmentValue` | src/adapters/claude-settings-policy.ts:408-418 | afterwards every spelling of the name reads the value and every other name what it read before |
| `ClaudeEnvironment.SpawnEnvironment.DeleteEnvironmentValue` | src/adapters/claude-settings-policy.ts:394-406 | afterwards no spelling of the control key is there and every other name reads as before |
| `ClaudeEnvironment.NarrowToAgentProcessEnvOverlay` | src/adapters/claude-settings-policy.ts:184-216 | the loop builds the specified overlay and never an empty one |
| `ClaudeEnvironment.GetOverlay` | src/adapters/claude-settings-policy.ts:184-216 | what any name reads in the overlay |
| `ClaudeEnvironment.OverlayReproducesResolved` | src/adapters/claude-settings-policy.ts:184-216 | inherited environment under overlay equals the resolved one name by name, a removed control key reading "0" |
| `ClaudeEnvironment.OverlayBeatsPersisted` | src/adapters/claude-settings-policy.ts:184-216 | over any persisted environment in between, touched names read as intended and the others keep their persisted value |
| `ClaudeEnvironment.ValueDifferenceExactly` | src/adapters/claude-settings-policy.ts:184-216 | without provenance a written name reads as intended exactly when its value differs from the inherited one or nothing else is persisted for it |
| `ClaudeEnvironment.ImportProvider` | src/adapters/claude-settings-policy.ts:124-128 | each provider variable fills in where the environment has none or a blank one |
| `ClaudeEnvironment.Resolve` | src/adapters/claude-settings-policy.ts:79-153 | what each policy promises of the resolved environment, and exactly when there is one |
| `ClaudeEnvironment.ResolveAgentProcessEnv` | src/adapters/claude-settings-policy.ts:69-77 | the overlay of a resolution, over any persisted environment, reads as intended where the resolver wrote or removed and leaves the rest alone |

## Left out

- Process spawning, sockets, timers as real time, chat channels, the CLI, npm and the wiring between services.
- The SQLite store, the session service and derived ids are assumed: barrier rows are upserted and never deleted, new ids are fresh, derived ids and hashes are injective.
- A closed SQLite store in `blockingRemovalPhase`: the removal theorems need its barrier row.
- Asynchronous functions are cut at their awaits into atomic steps of a state on values (`LifecycleGate`, `GroupMembership`, `RemovalProtocol`); promise objects are not modelled, only the order they impose. In `RemovalProtocol` the order in which calls get a Bot's gate is left open.
- The recursive `rm` of a directory is atomic in `AdapterLifecycle`, and file system failures other than the named fault points are left out.
- Parsing of release ids and of adapter commands is a parameter of the garbage collector model; a release id is compared with its manifest as a string.
- `GroupMemberRuntime.Rely`: what the rest of the daemon may do at an await is proved of the operations of this module at other scopes and assumed of everything else; that teardown marks the Topic before it releases a session or deletes a row comes from src/conversations/conversation-run-service.ts:2757-2769, which is not part of this model.
- The direct (one Bot) runtime paths, workspace registration, the dispatchability hook and the dedicated worktree checks of a member: they repeat the Group path or guard it further.
- A crash inside a materialization: the next one can find the alias axis alone and then fails closed.
- The control lane of the scheduler, which touches no state.
- Calls that re-enter `requestDaemon` from within the channel's write.
- Two `ensureSession` calls at once, whose outcomes could set `acpxVerboseSupported` in either order; the migration of a legacy session record, which runs before the deadline starts; the classification of a missing optional dependency.
- `markQueueTruncation` and `minimalAcpMessage`, whose encoded lines are parameters of `AcpSplit.GuardAcpStdoutLine`.
- `LexOrder` compares code points, which differs from the order of UTF-16 units only beyond the basic plane.
- The order in which a JavaScript object lists integer-like keys: objects are compared as maps.
- Values that `JSON.parse` cannot return, such as functions and undefined.
- Windows argument quoting, whose expressions double only the last backslash of a run.
- The avatar reader of a removal record is a parameter.
- Reading the Claude profile from disk, hashing and linking the filtered profile directory: their results are parameters. The layer of protected authentication variables above the overlay belongs to acpx.
- UTF-8 decoding: a line of the Hermes stream is parsed from its bytes by a parameter.
