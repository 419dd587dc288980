# Endbot verification

Endbot keeps fake players ("Bots") on a Bedrock server. A JavaScript runtime owns the connection of every Bot and
drives its body tick by tick; a Python core owns the typed command vocabulary. This project models eight pieces of the two
and proves what they promise over every input, every run and every interleaving.

| file | what it holds |
|---|---|
| `Lifecycle.dfy`, `LifecycleInv.dfy`, `LifecycleRuns.dfy`, `LifecycleRetries.dfy`, `LifecycleState.dfy` | the connection lifecycle of one Bot: generations, the queue of transitions, connects in flight, close events, retry timers |
| `InputModel.dfy`, `InputJobs.dfy`, `InputRuns.dfy`, `InputState.dfy` | the input scheduler: jobs, intervals, durations, counts, holds, flag transitions |
| `Mining.dfy`, `MiningRuns.dfy`, `MiningLoops.dfy` | block breaking: queued block actions, the lease, tick and block budgets |
| `ItemUse.dfy`, `ItemUseRuns.dfy`, `Session.dfy` | pressing, holding and releasing the held item, and the session object that mines and uses |
| `Artifacts.dfy`, `ArtifactRuns.dfy`, `ArtifactExact.dfy`, `ArtifactFiles.dfy` | processes racing to publish one file |
| `Areas.dfy`, `AreaText.dfy`, `AreaCells.dfy` | areas: reading and printing, resolving, listing cells |
| `Operations.dfy`, `OperationValues.dfy`, `OperationText.dfy`, `OperationNeeds.dfy`, `OperationRegistry.dfy`, `OperationLoops.dfy` | typed operations: values, printing, the backtracking reader, and the source's own table of shapes |
| `InventorySync.dfy`, `InventoryDrops.dfy` | fragment reassembly and drop planning |
| `Common.dfy` | result types and a little arithmetic |

Code that the source updates in place has two forms here: functions on values, which the properties are about, and a class
or method with the same fields and loops whose `ensures` ties every call to those functions. Every promise is stated on
runs of the functions, so it holds of the objects too; `ArtifactFiles.CallIsARun` makes that tie where the functions are
steps of many processes and the object does a whole call. `dafny verify dfyconfig.toml` checks everything.

What the models take as given:

- **Lifecycle.** A session's `disconnect` resolves only once its transport is closed; a rejected `connect` or a `close`
  event means that it is closed; `applyInputs` and `emit` do not throw; timers never fire early. Every `await` splits an
  operation into steps, and the steps of any number of operations, connects, closings and timers interleave freely. The
  runtime starts its Bots right after it listens, so starting is the first event. State objects are shared by reference in
  the source; here they are indices into a table.
- **Sessions.** Whether a packet can be sent, a target is in reach or a command is refused by the surroundings is a
  parameter of each event. Presses of the use button are numbered, and every use transaction carries its press's number.
- **Artifacts.** Reading the directory, linking, opening exclusively, writing and removing are atomic steps; any step may
  fail, any tolerated call may be refused (including a link that reports EPERM), any process may crash at any time.
- **Numbers.** Area coordinates are exact reals and numbers in operations are exact decimals, so float rounding plays no
  part; a number that is not whole is printed with an exponent exactly where Python does it, below 0.0001 in size. Ticks
  and ids are unbounded integers.
- **Decoding.** Inventory fragments carry their decoded bytes, and the decoder is any partial function of bytes. The
  canonical words of an area inside an operation are any partial function of words.

Where the code does not keep what one would expect of it, the code is kept, and what is proved is when it does. In these
cases that is exact, an if-and-only-if over all inputs:

- Printing an area and reading it back works exactly when each number in it that is not whole is at least 0.0001 in size
  (`AreaText.PrintsBackExactly`; `AreaText.TinyOffsetDoesNotPrintBack` is a case that fails).
- No run of the racing processes publishes an unfinished file exactly when the file is there already, or at most two
  processes share a candidate name, three where a crashed run has left a candidate of it
  (`ArtifactExact.NeverPartialExactly`). A process's candidate is safe from the others exactly with one sharer less
  (`ArtifactExact.CandidatesKeptExactly`), and nobody throws exactly when the file is there or
  every name is new and taken once (`ArtifactExact.NobodyThrowsExactly`). The source makes a name of its process id and 48 random bits.
- Uncounted retries are bounded exactly when their delay is positive or no time is allowed for them
  (`LifecycleRetries.UncountedBoundedExactlyWhen`).
- The size of a box of relative corners is judged when it is typed and again where it resolves. The first verdict is too
  strict, too lax, or right wherever the box resolves, exactly as the least and the most cells that its corners can span
  compare with the cap (`AreaCells.WronglyRefusedExactly`, `AreaCells.WronglyAcceptedExactly`,
  `AreaCells.SizeVerdictExactly`; `AreaCells.FractionsMayDisagree` is a box that is refused too early).
- A value reads back to its own token exactly as `OperationValues.ReadsBackExactly` says; `007` does not where a text or a
  number is allowed, and no number below 0.0001 in size does.

The reader of operations is the one case with a condition that is not shown to be exact. It prints every reading again, and
where shapes overlap that can raise, so that canonical text is refused. Text is read whenever the shapes are apart, its
words do not begin with an accidental `in`, and no words in it read as an area that does not print
(`OperationText.CanonicalTextReads`); `OperationNeeds` has a refused text for each of the three. Shapes that overlap may
still be harmless, since that depends on what their fields can hold. The source's own table has shapes that are apart and no
accidental `in` (`OperationRegistry.SourceRegistered`, `OperationRegistry.SourceTextReads`). In both the option groups are
complete, the values read back, and the target is no root word: a Bot called `list` could not be addressed
(`OperationRegistry.RootNameRefusesCanonicalText`), and the source reserves such names.

## Model

| member | source | states |
|---|---|---|
| LifecycleInv.StepKeeps | runtime/src/lifecycle.js:411-577 | every atomic step of every operation, connect, close event and timer keeps one invariant: sessions, generations, timers and the transition queue fit together |
| LifecycleRuns.AtMostOneOpen | runtime/src/lifecycle.js:464-499 | in every reachable state at most one session is opened and not yet confirmed closed, and unless the runtime is closing it is the one the Bot's state holds |
| LifecycleRuns.NeverRefused | runtime/src/lifecycle.js:464-475 | whenever a transition or retry is about to connect, nothing is held or open, so the refusal to open a second session never happens |
| LifecycleRuns.OpensUnderLatestIntent | runtime/src/lifecycle.js:423-441 | a step opens at most one session, only while none is open, only for a Bot that should be online, only under the generation of the latest intent |
| LifecycleRuns.NoSessionAfterDespawn | runtime/src/lifecycle.js:162-174 | after an accepted despawn, whatever was queued or in flight, no session is ever opened without a later spawn or resume |
| LifecycleRuns.NeverSilentlyLost | runtime/src/lifecycle.js:192-232 | a Bot that should be online, with nothing queued and no connect in flight, is online with a session, reconnecting with an armed timer, or failed, even after a rename whose store update failed |
| LifecycleRuns.HeldSessionIsCurrentOrLeaving | runtime/src/lifecycle.js:401-441 | a held session is of the latest generation, or a queued transition will try to close it, or a failed close left the state failed |
| LifecycleRuns.LossCountedOnce | runtime/src/lifecycle.js:501-538 | over every run the loss of a session is acted on at most once, although both the close event and the rejected connect report it |
| LifecycleRetries.DelaysNeverFall | runtime/src/lifecycle.js:533-552 | over any automatic sequence there is one armed delay for every counted retry, the delays never fall, and none exceeds the configured maximum |
| LifecycleRetries.RetriesBounded | runtime/src/lifecycle.js:518-552 | an automatic sequence makes at most maximumAttempts counted retries, and with a positive notReadyDelay at most ceil(notReadyLimit / notReadyDelay) uncounted ones |
| LifecycleRetries.RetryDelays | runtime/src/lifecycle.js:540-552 | a counted retry is armed with the backoff of its number, an uncounted one with the fixed delay, and no timer fires early |
| LifecycleRetries.NoneUncounted | runtime/src/lifecycle.js:520-526 | where no time is allowed for a starting server every retry is counted |
| LifecycleRetries.UncountedBoundedExactlyWhen | runtime/src/lifecycle.js:520-526 | some bound on uncounted retries exists if and only if their delay is positive or no time is allowed for them |
| LifecycleStates.BotLifecycle.constructor | runtime/src/lifecycle.js:46-53 | a new runtime connects the Bot once when its profile asks for that |
| LifecycleStates.BotLifecycle.Invalidate | runtime/src/lifecycle.js:411-421 | the object moves to a new generation and disarms the held timer, as the step on values |
| LifecycleStates.BotLifecycle.Connect | runtime/src/lifecycle.js:464-483 | the object's fields after the synchronous part of connecting are those of the step on values |
| LifecycleStates.BotLifecycle.Disconnected | runtime/src/lifecycle.js:501-538 | the object's fields after a reported loss are those of the step on values |
| LifecycleStates.BotLifecycle.RetryAfter | runtime/src/lifecycle.js:540-552 | arming a retry changes one state object, the map's entry and the timers |
| LifecycleStates.BotLifecycle.BeginEndCurrent | runtime/src/lifecycle.js:554-564 | closing up to its await: the timer is disarmed and the session to close is remembered |
| LifecycleStates.BotLifecycle.DisconnectResolved | runtime/src/lifecycle.js:574-576 | the awaited closing lets go of exactly the session it closed and keeps the invariant |
| LifecycleStates.BotLifecycle.DisconnectRejected | runtime/src/lifecycle.js:565-573 | a rejected closing leaves the state failed, ends the transition and keeps the invariant |
| LifecycleStates.BotLifecycle.ConnectDone | runtime/src/lifecycle.js:484-495 | a connect that resolves brings the Bot online or is superseded, and keeps the invariant |
| LifecycleStates.BotLifecycle.ConnectFailed | runtime/src/lifecycle.js:496-498 | a rejected connect is reported with the session its own state object holds, and keeps the invariant |
| LifecycleStates.BotLifecycle.SessionClosed | runtime/src/lifecycle.js:482 | a close event is reported once for its session, and keeps the invariant |
| LifecycleStates.BotLifecycle.ForNewName | runtime/src/lifecycle.js:92-105 | a spawn of a name without a profile makes a Bot of its own that was never online, and is then a spawn of it |
| LifecycleStates.BotLifecycle.Spawn | runtime/src/lifecycle.js:99-118 | a spawn of a Bot with a profile that is not active stores the wish and queues one transition under a new generation |
| LifecycleStates.BotLifecycle.Reconnect | runtime/src/lifecycle.js:141-144 | an explicit reconnect of a Bot that should be online queues one transition under a new generation |
| LifecycleStates.BotLifecycle.Despawn | runtime/src/lifecycle.js:162-165 | a despawn stores the wish and queues one transition under a new generation |
| LifecycleStates.BotLifecycle.Rename | runtime/src/lifecycle.js:192-200 | a rename remembers whether the Bot should be online and queues one transition under a new generation |
| LifecycleStates.BotLifecycle.FinishClose | runtime/src/lifecycle.js:55-66 | shutting down disarms the timer, leaves the held session to its closing and empties the map |
| LifecycleStates.BotLifecycle.FireTimer | runtime/src/lifecycle.js:543-549 | a due timer queues one retry under the generation it was armed in |
| LifecycleStates.BotLifecycle.Proceed | runtime/src/lifecycle.js:104-232 | the next stage of the running transition, for every kind of it, is the step on values and keeps the invariant |
| InputJobs.ApplyKeeps | runtime/src/actions.js:42-219 | every call and every tick keeps the jobs well formed, the ids conserved and the recorded ends older than what runs |
| InputJobs.JobIdsConserved | runtime/src/actions.js:42-110 | over every run each id ever issued is running on exactly one channel or was ended exactly once, and a channel's recorded end is older than its running id |
| InputJobs.RemainingNeverNegative | runtime/src/actions.js:221-243 | no reported remaining time is ever negative |
| InputRuns.RepeatsOnSchedule | runtime/src/actions.js:192-210 | over every run a repeating job triggers exactly at its due tick and each interval after it for as long as it lives |
| InputRuns.EndsOnTime | runtime/src/actions.js:198-202 | a job with an end tick never outlives it, and a tick ends it exactly then, recorded as elapsed |
| InputRuns.RepeatingAction | runtime/src/actions.js:64-79 | an action accepted at tick t triggers at t+1+k*i, exactly ceil(d/i) times when its duration d ends it at t+1+d |
| InputRuns.OneShotAction | runtime/src/actions.js:203-208 | a one-shot action triggers once, on the tick after acceptance, unless a call ends it first |
| InputRuns.TimedMove | runtime/src/actions.js:149-158 | a timed move is reported by exactly d steps, consecutive from the one after acceptance |
| InputRuns.TransitionsAlternate | runtime/src/actions.js:170-190 | between resets the transitions of a flag that were delivered and then those pending strictly alternate and end in its value |
| InputStates.InputState.constructor | runtime/src/actions.js:13-32 | a new scheduler is the empty one |
| InputStates.InputState.SetAction | runtime/src/actions.js:42-80 | the object after a request is the value after it, and the refusals are the source's in their order |
| InputStates.InputState.StopTargeted | runtime/src/actions.js:100-102 | the loop over the action map ends exactly the targeted jobs, in order |
| InputStates.InputState.CountHit | runtime/src/actions.js:105-110 | a counted trigger lowers the count and ends the job at zero |
| InputStates.InputState.StartTimedUse | runtime/src/actions.js:126-133 | the first air use fixes the end of a legacy timed use |
| InputStates.InputState.FinishHold | runtime/src/actions.js:137-142 | releasing a one-shot hold ends its job |
| InputStates.InputState.CancelTimedUse | runtime/src/actions.js:144-146 | a timed use or a hold is ended with a reason |
| InputStates.InputState.SetMovement | runtime/src/actions.js:149-158 | the object after a movement command is the value after it |
| InputStates.InputState.SetFlag | runtime/src/actions.js:170-175 | a changed flag is noted as one pending transition |
| InputStates.InputState.StopAll | runtime/src/actions.js:177-182 | everything running is ended and both flags are lowered |
| InputStates.InputState.Reset | runtime/src/actions.js:184-190 | everything running is ended and pending transitions are dropped |
| InputStates.InputState.Step | runtime/src/actions.js:192-219 | one tick of the object, with the loop that edits the action map, is one tick on values |
| MiningRuns.QueueStaysShaped | runtime/src/protocol-session.js:317-349 | over every run the queue is empty, one action, or an abort and then a start; an active job has no tick exactly while its start is queued |
| MiningRuns.StartsAndAbortsPair | runtime/src/protocol-session.js:291-349 | in the sent stream every abort directly follows the start of its own block, and no start follows a start |
| MiningRuns.OneAbortBetweenStarts | runtime/src/protocol-session.js:342-349 | between one start and the next without a discard there is exactly one abort, of the first block |
| MiningLoops.LoopLivesExactly | runtime/src/protocol-session.js:355-379 | a loop left alone is alive exactly while fewer than 200 ticks passed since the last successful continue, no more ticks than its duration, and fewer blocks than its count are done; then its counters are those numbers |
| MiningLoops.LoopEndReported | runtime/src/protocol-session.js:317-335 | the event that ends it leaves a job with the reason and the blocks completed by then |
| MiningLoops.StaleLoopChangesNothing | runtime/src/protocol-session.js:277-292 | whatever names a loop that is not running and never starts again can be deleted from a run without effect |
| ItemUseRuns.UsesPair | runtime/src/protocol-session.js:1100-1188 | in every session, whatever its scheduler went through in earlier ones, a release or continued use belongs to a start sent before it, same slot and stack, nothing between; at most one start and one release for each press, and nothing after the release |
| ItemUseRuns.HoldNeverExceeded | runtime/src/protocol-session.js:1028-1030 | in every session a press with hold h never sends more than h use transactions |
| ItemUseRuns.HoldLimitIsExact | runtime/src/protocol-session.js:1028-1030 | in every reachable state a tick releases a press for its hold exactly when h uses were sent, and sends it no more |
| ItemUseRuns.HoldRunsItsLength | runtime/src/protocol-session.js:1113-1129 | over any events that leave a press with hold h alone, every tick not taken by a block interaction sends one use of it and never more than h in all; once h are sent the next tick releases it first |
| ItemUseRuns.RunningLeavesAlone | runtime/src/protocol-session.js:1021-1034 | a tick leaves a press alone as long as its use command is neither replaced nor at its end and its hold is not used up |
| Sessions.BedrockSession.constructor | runtime/src/protocol-session.js:65-104 | a new session mines nothing and presses nothing, and takes over the Bot's scheduler as it stands |
| Sessions.BedrockSession.StopMining | runtime/src/protocol-session.js:317-340 | stopping in place is stopping on values, for every reason, with and without discard and kept loop |
| Sessions.BedrockSession.StartMiningLoop | runtime/src/protocol-session.js:259-275 | starting a loop replaces what ran, or is refused with nothing changed |
| Sessions.BedrockSession.StartMining | runtime/src/protocol-session.js:291-315 | a new block takes the old one off the wire and frees the hands, in one call |
| Sessions.BedrockSession.ContinueMining | runtime/src/protocol-session.js:277-282 | the lease is renewed only when the target is not refused |
| Sessions.BedrockSession.RestartMining | runtime/src/protocol-session.js:342-349 | restarting in place is restarting on values |
| Sessions.BedrockSession.CompleteMining | runtime/src/protocol-session.js:355-363 | completing in place is completing on values |
| Sessions.BedrockSession.BlockUpdated | runtime/src/protocol-session.js:849-854 | only another block at the watched place completes the job |
| Sessions.BedrockSession.MiningTick | runtime/src/protocol-session.js:372-398 | one tick ages lease, duration and block and hands over the whole queue |
| Sessions.BedrockSession.ApplyInputs | runtime/src/protocol-session.js:232-245 | a press whose command changed is released or carried on as the value says |
| Sessions.BedrockSession.ReleaseItemUse | runtime/src/protocol-session.js:1175-1188 | a release forgets the press, finishes its hold, and is sent only for a press that was started |
| Sessions.BedrockSession.SetHeldItem | runtime/src/protocol-session.js:1236-1259 | another stack ends the press, another tool restarts the block, an interval keeps its schedule |
| Sessions.BedrockSession.SelectHotbar | runtime/src/protocol-session.js:408-417 | selecting a slot restarts the block and ends the press before the slot changes |
| Sessions.BedrockSession.MoveItems | runtime/src/protocol-session.js:634-646 | a swap ends the press before the stacks change |
| Sessions.BedrockSession.Equip | runtime/src/protocol-session.js:926-938 | the server's choice of slot and stack is taken over |
| Sessions.BedrockSession.ChangeDimension | runtime/src/protocol-session.js:780-792 | a dimension change drops block and press unsent and ends targeted jobs |
| Sessions.BedrockSession.RequestRespawn | runtime/src/protocol-session.js:977-990 | dying drops block and press unsent and stops every input |
| Sessions.BedrockSession.SendTick | runtime/src/protocol-session.js:1021-1129 | one tick of the object is one tick of item use and one of mining, with the block actions it hands over |
| ArtifactExact.NeverPartialExactly | runtime/src/local-identity.js:77-126 | under any interleaving, failure and crash no unfinished file is ever published, if and only if the file was there or no candidate name has more than two takers (three where one was left behind) |
| ArtifactExact.NeverPartialNorReplaced | runtime/src/local-identity.js:77-126 | under that condition the published file is never partial and, once there, never replaced or rewritten |
| ArtifactRuns.NeverReplaced | runtime/src/local-identity.js:84-107 | whatever the names are, the file once published is never replaced, and once finished never rewritten |
| ArtifactRuns.ReturnsAgree | runtime/src/local-identity.js:77-126 | whatever the names are, every process that returns gets the published value |
| ArtifactRuns.AtMostOneCreates | runtime/src/local-identity.js:108-114 | whatever the names are, at most one process reports that it created the file |
| ArtifactExact.CreatorMadeTheValue | runtime/src/local-identity.js:108-114 | where unfinished files cannot be published, the process that reports creating the file made its value up |
| ArtifactExact.CandidatesKeptExactly | runtime/src/local-identity.js:55-75 | a candidate that another process has yet to publish is removed only once the file is there, if and only if the file was there or no name has more than one taker (two where one was left behind) |
| ArtifactExact.NobodyThrowsExactly | runtime/src/local-identity.js:92-107 | where only crashes go wrong nobody throws, a failed link always finding the winner, if and only if the file was there or every candidate name is new and one process's own |
| ArtifactFiles.Folder.CleanupTemporaries | runtime/src/local-identity.js:55-75 | the loop over the listing removes every candidate |
| ArtifactFiles.Folder.LoadOrCreate | runtime/src/local-identity.js:77-126 | one process on its own returns the existing value or publishes its own, with the whole new state of the directory |
| ArtifactFiles.CallIsARun | runtime/src/local-identity.js:77-126 | for every directory what the object does in a call is a run of the stepwise process with nothing beside it |
| Areas.TakeArea | core/src/endbot_core/areas.py:111-150 | the two nested loops over the words compute the clauses, the other words and the errors of the specification |
| Areas.CheckBox | core/src/endbot_core/areas.py:96-108 | the loop refuses exactly the boxes over the cap whose axes are each of one kind |
| AreaText.PrintsBackExactly | core/src/endbot_core/areas.py:153-191 | reading a printed well-formed area gives it back if and only if no number in it prints with an exponent |
| AreaText.TinyOffsetDoesNotPrintBack | core/src/endbot_core/areas.py:163-170 | a concrete area with an offset below 0.0001 does not print back |
| AreaText.ReadPrintRead | core/src/endbot_core/areas.py:153-191 | whatever is read is well formed, so printing and reading it again changes nothing unless it has a tiny fraction |
| AreaCells.ResolvesOnce | core/src/endbot_core/areas.py:215-247 | a resolved area has nothing relative left and resolves to itself under any second reference |
| AreaCells.ResolvesAnywhere | core/src/endbot_core/areas.py:295-308 | an area that has nothing relative resolves the same against every reference |
| AreaCells.WronglyRefusedExactly | core/src/endbot_core/areas.py:96-108 | a box refused when typed is refused wherever it resolves, if and only if the least its corners can span is over the cap |
| AreaCells.WronglyAcceptedExactly | core/src/endbot_core/areas.py:225-234 | a box accepted when typed is within the cap wherever it resolves, if and only if the most its corners can span is within the cap |
| AreaCells.SizeVerdictExactly | core/src/endbot_core/areas.py:96-108 | the verdict when typed is the verdict wherever the box resolves, if and only if the least or the most span says the same |
| AreaCells.SizeVerdictAgrees | core/src/endbot_core/areas.py:96-108 | so it is for corners a whole number of blocks apart |
| AreaCells.WholeOffsets | core/src/endbot_core/areas.py:96-108 | corners with whole coordinates or offsets are such corners |
| AreaCells.FractionsMayDisagree | core/src/endbot_core/areas.py:96-108 | a fractional box is refused when typed although it resolves within the cap |
| AreaCells.BoundsCover | core/src/endbot_core/areas.py:270-282 | the bounds of a cell, box or sphere cover every cell that it has |
| AreaCells.ResolvedBounds | core/src/endbot_core/areas.py:225-234 | a resolved box holds at most 17157 cells and a resolved sphere spans at most 33 along each axis |
| AreaCells.Cells | core/src/endbot_core/areas.py:285-292 | the triple loop lists once each, in order, exactly the cells the area admits, and no more than the bounds hold |
| OperationValues.ReadsBackExactly | core/src/endbot_core/operations.py:44-67 | a written value, whole or not, reads back to the same token if and only if it prints without an exponent and is no text that looks like a number, or prints as that allowed number |
| OperationValues.LeadingZeroDoesNotReadBack | core/src/endbot_core/operations.py:119-141 | `007` where texts and numbers are allowed does not read back |
| OperationText.SeparatedExactly | core/src/endbot_core/operations.py:85-89 | two shapes are apart if and only if no set of fields fits both |
| OperationText.MatchFind | core/src/endbot_core/operations.py:174-194 | among the readings of the words of a shape is one with the same fields that prints the same words |
| OperationText.MatchWritable | core/src/endbot_core/operations.py:144-194 | every reading of a shape has fields that the shape takes and can be printed as that shape |
| OperationText.CanonicalTextReads | core/src/endbot_core/operations.py:197-221 | in any registry of shapes that are apart the reader finds, for every operation that prints, whose values read back, whose option groups are complete, whose target is no root word, and whose words do not begin with an accidental `in` and hold no area that does not print, an operation that prints the same words |
| OperationRegistry.SourceRegistered | core/src/endbot_core/operations.json:2-836 | every shape of the source's own table is well formed, and no set of fields fits two shapes of one operation |
| OperationRegistry.SourceTextReads | core/src/endbot_core/operations.py:197-221 | for every operation of the source's own table that prints, the reader finds one that prints the same words, if its values read back, its option groups are complete, its target is no root word and no words in it read as an area that does not print |
| OperationRegistry.RootNameRefusesCanonicalText | core/src/endbot_core/operations.py:205-208 | the text of an operation on a Bot called `list` is refused, which is what the reserved names are for |
| OperationText.ParsedPrints | core/src/endbot_core/operations.py:197-221 | whatever the reader accepts, in any registry, prints exactly the words it was given, with complete option groups |
| OperationNeeds.OverlapRefusesCanonicalText | core/src/endbot_core/operations.py:211-221 | with overlapping shapes a canonical text can be refused |
| OperationNeeds.LeadingInRefusesCanonicalText | core/src/endbot_core/operations.py:178-185 | a teleport text whose first word is by accident `in` is refused, though its shapes are in order |
| OperationNeeds.UnprintableAreaRefusesCanonicalText | core/src/endbot_core/operations.py:157-167 | words that read as an area which does not print make the reader raise before the right shape, though the shapes are in order |
| OperationLoops.OperationArgv | core/src/endbot_core/operations.py:70-100 | the loops over shapes and fields print what the specification prints, and refuse what it refuses |
| OperationLoops.MatchShape | core/src/endbot_core/operations.py:174-194 | popping words and fields off the front gives exactly the readings of the specification |
| OperationLoops.ReadOperation | core/src/endbot_core/operations.py:197-221 | the nested loops over shapes and readings compute the reader of the specification |
| InventorySync.InventoryObservation.constructor | runtime/src/inventory-sync.js:89 | a new observation has accepted nothing |
| InventorySync.InventoryObservation.AcceptFragment | runtime/src/inventory-sync.js:91-115 | the object after a fragment, and what it returns or throws, are those of the step on values |
| InventorySync.SnapshotsAreWhole | runtime/src/inventory-sync.js:91-115 | for any stream each returned snapshot decodes the in-order concatenation of the full set of parts of one sequence |
| InventorySync.AcceptedMoves | runtime/src/inventory-sync.js:99-114 | the accepted sequence moves exactly when a snapshot is returned, to the fragment's own newer sequence |
| InventorySync.SnapshotsIncrease | runtime/src/inventory-sync.js:99-114 | the sequences of returned snapshots strictly increase |
| InventorySync.WholeSequenceIsReturned | runtime/src/inventory-sync.js:99-114 | where all parts of a sequence arrive, in any order and number, the last missing one returns the decoded whole |
| InventoryDrops.DropPlan | runtime/src/inventory-drops.js:7-38 | the loop with its budget plans what the specification plans, and the refusals are the source's |
| InventoryDrops.CountedDrop | runtime/src/inventory-drops.js:23-38 | a drop of n of an item plans exactly min(n, matching) items, lowest entry first, whole stacks but possibly the last, never more than a stack holds |
| InventoryDrops.UncountedDrop | runtime/src/inventory-drops.js:23-38 | without a count every matching item is planned, and one of the selected stack unless all of it is asked for |
| InventoryDrops.PlayerInventory.DropItems | runtime/src/protocol-session.js:664-686 | applying a plan in place conserves cached plus dropped items in every slot, changes nothing else, and is refused whole or not at all |

## Left out

- Sockets, signalling, discovery, packet contents and the server itself: only the events that drive the machines are here.
- Movement physics, look vectors, target selection and vehicles: floating-point trigonometry without a crisp specification.
- `setLook` and the look in a snapshot: two numbers that nothing else in the scheduler reads.
- `lastError`, `nextReconnectAt` and the status texts of the lifecycle: reported strings that no branch reads.
- Names, collisions of names and other Bots: each Bot has its own generations and queue, so one Bot's machine is all of it.
- The five-second bound on closing and the length of the replacement delay: the machine waits for the events, however late.
- The announced equipment, swing animations and the attack and interact aims of a tick: they touch neither machine.
- Item counts and enchantments of a held stack: a press looks only at network id, metadata and stack id.
- The process id and random part of a candidate name, file modes and the check for symbolic links: names are compared, contents are whole or partial.
- Cryptography, token signing and key formats: what a file holds is an opaque valid value.
- JSON, base64, UTF-8 and NBT decoding of inventories: one partial function of the reassembled bytes.
- Rounding of floats: a decimal of an operation keeps all its digits, an area keeps its numbers but not their digits.
- Words beyond ASCII: letter case, white space and digits are those of ASCII.
- Compound shell quoting inside one token: the reader takes a bare word or one single-quoted text, which is all that the printer writes.
- The capabilities, host requests and reserved names beside the shapes in the operation table.
- Stores for policy, roles, ownership and revisions, forms, menus, help, translation and the web interface: one-branch claims or presentation.
- OperationText.CanonicalTextReads: the converse, which overlapping shapes really refuse a text, depends on the words that each of their fields can hold.
