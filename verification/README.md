# AngeVoice: a verified model

AngeVoice serves several text-to-speech models over HTTP and WebSocket. The inference itself is foreign code; around it
there is a worker protocol between two processes, a model lifecycle with failures at every turn, a chain of layers that
has to end every stream properly, a text segmenter, and a number of buffers and limiters. This project models those parts
in Dafny and proves what they are relied on for. `dafny verify dfyconfig.toml` checks all of it.

## The parts

**Worker protocol** (`WorkerProtocol`, `WorkerProtocolProofs`, `WorkerAnswers`, `WorkerEndings`, `WorkerLoops`,
`WorkerProtocolRace`, `WorkerToClient`). Parent, child, two queues and one shared cell as a step function; a run is any
sequence of actions, so a theorem about `Run(actions)` is one about every interleaving, with timeouts, crashes and kills
as actions. Some fields (`issued`, `queued`, `got` and the `log`) are history that no step reads. `WorkerAnswers` leads
every answer and every item back to the step in which the engine gave it, and `WorkerEndings` every ending of a request
to its cause. `WorkerLoops` holds the loops that run on one side, and the parent as an object. `WorkerProtocolRace` has
the two ways in which a cancellation of the stream in hand gets lost: the child clears the cell by reading and then
writing, and may wipe out one that is not its own; and a stream empties the cell when it has to start a worker, which
comes after the raising of its generation. Written when the stream has its worker and the child is not about to clear
the cell for another one, a cancellation stays as long as its stream lasts, unless the worker is killed or another
stream's cancellation is written over it. `WorkerToClient` joins the protocol to the layers above it: one theorem from
the engine in the child to the WebSocket client.

**Engine lifecycle** (`EngineManager`, `EngineManagerProofs`, `EngineManagerBorrows`, `EngineManagerHealth`,
`EngineManagerSwitch`, `EngineManagerIdle`, `EngineManagerUse`, `EngineManagerProvider`, `EngineManagerClass`). What
each operation under the manager's lock does to its tables, with an oracle that decides how every call into an engine
goes, so that a theorem for all oracles covers all patterns of failure; what borrowed engines do without the lock
(breaking down, loading themselves) are further steps of a run. `EngineManagerClass.Manager` is the object itself; each
of its methods is proved to compute the corresponding function, and the theorems are about runs of those functions.

**Stream termination** (`StreamFrames`, `WsSession`, `WsDelivery`, `WsProducer`, `WsCancel`, `WsSessionClass`). The
service's frame iterator and the forwarding layer below it, and the WebSocket session around them: producer thread,
bounded queue, send loop, control listener and outside cancellation take turns in a second step machine. `WsDelivery`
has what arrives if nobody interferes, `WsProducer` what may arrive at all, and `WsCancel` what a cancellation does.

**Text** (`TextNormalization`, `TextNormalForm`, `TextSegmenter`, `TextSegmenterProofs`, `TextSeams`, `TextPacking`,
`TextLines`, `SentenceCuts`, `SpanProtection`, `SpanLimits`). Normalising, segmenting and the placeholders for technical
spans. The properties of characters that come from the Unicode database are parameters; a pattern is any function that
gives separate matches.

**Buffers, limits, locks** (`SilenceCompression`, `Crossfade`, `FrameBatching`, `RateLimit`, `PcmFraming`, `AssetLocks`,
`ZipVoiceAssets`, `PromptCache`). Independent of each other.

Some results are negative. Each has its input, and beside it stands when the property does hold.

- A cancellation can be erased (`WorkerProtocolRace.ACancelCanBeErased`) or started over
  (`WorkerProtocolRace.ACancelCanBeStartedOver`); `CancelLastsExactlyWhen` has the condition.
- Two owned engines can be loaded, as a borrowed engine that finds itself unloaded loads itself without the manager's lock
  (`EngineManagerProofs.TwoModelsCanBeLoaded`); `AtMostOneModelIsLoaded` has the condition.
- Two families of texts do not come back from the placeholders. In the one, the text itself holds a placeholder, as
  "ANGEPROTECTEDA CPU" does (`SpanLimits.PlaceholderInTheTextIsLost`, `SpanLimits.CpuIsLost`). In the other, there are more
  than 26 spans and a letter stands behind one of them: placeholder 26 is placeholder 0 with a B behind it, so that
  "1.2版B" followed by 26 times " 1.3版" loses the 1.2 (`SpanLimits.TwentySevenSpansAreLost`). The bound of
  `SpanProtection.PlainTextsComeBack` is therefore the best one. `SpanLimits.StepComesBackExactlyWhen` says for one
  placeholder when taking it out undoes putting it in.
- A client whose first request falls on a registry sweep is forgotten, and served one request more than its burst and flow
  allow for each time that this happens (`BucketRegistry.OneMoreThanTheBurst`, `BucketRegistry.ForgottenAtEverySweep`);
  `NewClientIsLimitedExactlyWhen` has the condition, and `NewClientsAreLimited` the bound that always holds.
- `borrow` replaces an unhealthy engine once and does not look at the replacement, so it can hand out an unhealthy engine
  (`EngineManagerHealth.UnhealthyReplacementIsHandedOut`); `BorrowIsHealthyExactlyWhen` has the situations in which it
  cannot.
- The end of a text that broke off leads the next text of the connection (`PcmFraming.BrokenTextLeadsTheNext`); a text has
  its own frames if and only if nothing was left waiting (`PcmFraming.OwnFramesExactlyWhenNothingWaits`).
- A bucket without refill promises that waiting one second helps, and it never does (`TokenBuckets.RetryAfterIsExact`).
  This concerns the bucket as a class; the server installs the limiter for a positive rate only.

## Model

| member | source | states |
|---|---|---|
| WorkerProtocolProofs.YieldsAreAPrefixOfTheOwnEvents | src/kokoro_tts/workers/process_worker.py:308-391 | In every interleaving, what one stream call yields is an in-order prefix of the events the child queued for that request id; leftovers of other requests are never yielded |
| WorkerProtocolProofs.CompletedStreamYieldsEverything | src/kokoro_tts/workers/process_worker.py:366-435 | A stream call that ends normally and uncancelled has yielded every event of its request, and the child has closed it with a done |
| WorkerProtocolProofs.StreamIsCutOnlyByItsOwnCancel | src/kokoro_tts/workers/process_worker.py:532-578 | Unless a cancel was written for its own generation, a stream closed with a done carries all items of its engine, repaired with an error and a correctly counted done if no terminal event came; a cancel for another generation, however late, shortens nothing |
| WorkerProtocolProofs.CancelLosesAtMostOneItem | src/kokoro_tts/workers/process_worker.py:545-573 | A cancelled stream loses at most the one item the child held when it saw the cancel |
| WorkerProtocolProofs.GenerationsAreNotShared | src/kokoro_tts/workers/process_worker.py:315-319 | No two stream commands ever carry the same generation |
| WorkerProtocolProofs.UncancelledStreamEndToEnd | src/kokoro_tts/workers/process_worker.py:308-435 | From engine to caller: an uncancelled, completed stream yields exactly the engine's items, repaired, with a terminal event among them |
| WorkerProtocolProofs.AtMostOneClosing | src/kokoro_tts/workers/process_worker.py:601-649 | Of all messages with one id at most one is a result, done or error, and it is the last |
| WorkerProtocolProofs.EveryTakenCommandIsClosed | src/kokoro_tts/workers/process_worker.py:601-649 | A living child that is not working on a command of its queues any more has answered it with a closing message |
| WorkerProtocolProofs.CallsGetTheirOwnAnswer | src/kokoro_tts/workers/process_worker.py:445-460 | A call, or a shutdown, is answered with the single message the child queued under its id; where that comes from is the next row |
| WorkerAnswers.CallsGetTheEnginesAnswer | src/kokoro_tts/workers/process_worker.py:601-649 | In every run an answer goes back to the step in which the child ended its work on that very command: a result is the value that the engine returned there, an error means that the work raised, and a shutdown is answered according to how the unload went |
| WorkerAnswers.UnknownCommandsFail | src/kokoro_tts/workers/process_worker.py:620-630 | A command that the child does not know is never answered with a result |
| WorkerAnswers.ProducedIsWhatTheEngineYielded | src/kokoro_tts/workers/process_worker.py:549-561 | The items that the theorems about streams speak of are those that the engine yielded while the child was working on that request, in order |
| WorkerAnswers.CommandsAreWhatWasAsked | src/kokoro_tts/workers/process_worker.py:315-320 | Each command carries the operation that its caller asked for, and a stream the generation that was raised for it |
| WorkerProtocolProofs.NoProtocolError | src/kokoro_tts/workers/process_worker.py:376-388 | No reachable stream ends because of a message of an unexpected kind |
| WorkerEndings.EndingsHaveTheirCause | src/kokoro_tts/workers/process_worker.py:329-391 | Each recorded ending has its cause in the run: a time-out has killed the worker, an exit was seen of a worker that was dead, a failure was the next message under this very id, a cancelled ending came from the closing message while draining, and so on |
| WorkerEndings.BrokenStreamsAreCancelled | src/kokoro_tts/workers/process_worker.py:389-391 | A stream whose loop was left before its closing message writes its own generation into the cell before anything else is asked of the worker |
| WorkerEndings.CancelledStreamsYieldNothingMore | src/kokoro_tts/workers/process_worker.py:366-379 | Once its caller has seen a cancellation, or has left it, a stream yields nothing more in any run, whatever its worker still sends |
| WorkerEndings.NothingComesInTheTail | src/kokoro_tts/workers/process_worker.py:393-435 | Behind the closing message no message of the same request comes, in any reachable state |
| WorkerEndings.NothingOutlivesAWorker | src/kokoro_tts/workers/process_worker.py:170-192 | A kill, and the start of a new worker, leave no message, no command and no cancellation of the old one |
| WorkerEndings.ShutdownIsTheEnd | src/kokoro_tts/workers/process_worker.py:606-619 | A worker that has answered the shutdown of its queues is gone |
| WorkerProtocolProofs.RunKeepsInv | src/kokoro_tts/workers/process_worker.py:308-649 | The invariant behind the theorems above holds in every reachable state |
| WorkerProtocolRace.ACancelCanBeErased | src/kokoro_tts/workers/process_worker.py:574-576 | A run in which a cancellation for the second stream is written and then wiped out by the child clearing the first stream's |
| WorkerProtocolRace.ACancelCanBeStartedOver | src/kokoro_tts/workers/process_worker.py:170-183 | A run in which a cancellation written after the raising of the generation is wiped out by the stream's own start of a worker |
| WorkerProtocolRace.CancelLastsExactlyWhen | src/kokoro_tts/workers/process_worker.py:315-321 | The cancellation of the stream in hand stays in the cell until the stream is over or the child clears it as its own, through everything but a kill and another stream's cancellation, if and only if the stream is past its start and the child is not about to clear the cell for another stream |
| WorkerProtocolRace.SoftCancelLastsExactlyWhen | src/kokoro_tts/workers/process_worker.py:155-168 | After any run, a soft cancel of the stream in hand lasts in this sense if and only if it is written in such a moment |
| WorkerProtocolRace.KeptCancelCutsItsStream | src/kokoro_tts/workers/process_worker.py:544-552 | A cancel that lasts until its stream yields an item ends the child's loop at that item |
| WorkerLoops.TakeItems | src/kokoro_tts/workers/process_worker.py:544-560 | The loop takes items up to the first look that finds its generation in the cell, queues each, and knows whether one was terminal and how many were audio |
| WorkerLoops.RunChildStreamPhase | src/kokoro_tts/workers/process_worker.py:532-578 | The child's loop queues the items up to the first look that finds its generation in the cell, then the repair or not, then one closing message |
| WorkerLoops.UncancelledPhase | src/kokoro_tts/workers/process_worker.py:561-573 | If no look finds a cancel, everything is queued, repaired and closed |
| WorkerLoops.ShutdownReply | src/kokoro_tts/workers/process_worker.py:259-280 | The receipt is the first message with the shutdown's id; leftovers of other requests do not decide it |
| WorkerLoops.Client.StartProcess | src/kokoro_tts/workers/process_worker.py:170-192 | A living process is kept; a dead one is replaced with new queues and an empty cell |
| WorkerLoops.Client.SoftCancelWorker | src/kokoro_tts/workers/process_worker.py:155-168 | Only a positive generation is written |
| WorkerLoops.Client.CloseByKilling | src/kokoro_tts/workers/process_worker.py:194-243 | Killing empties both queues and the cell at any moment, whoever holds the request lock |
| WorkerLoops.Client.SendCommand | src/kokoro_tts/workers/process_worker.py:437-443 | A command goes out under an id never used before, and the caller waits for that id |
| WorkerLoops.Client.TakeAnswer | src/kokoro_tts/workers/process_worker.py:453-459 | A waiting call takes its own message and drops any other |
| WorkerLoops.Client.TakeStreamMessage | src/kokoro_tts/workers/process_worker.py:353-388 | A stream yields exactly its own events, and none while it drains |
| EngineManagerProofs.AtMostOneModelIsLoaded | src/kokoro_tts/engine_manager.py:358-516 | Whatever loads and unloads fail, at most one owned engine is loaded in every state of a run, if and only if no borrowed engine loads itself while another owned engine is loaded |
| EngineManagerProofs.TwoModelsCanBeLoaded | src/kokoro_tts/engines/adapters/kokoro.py:99-100 | A borrowed engine breaks down, another model is loaded, the borrowed one loads itself, and both are loaded |
| EngineManagerProofs.CountsStayBounded | src/kokoro_tts/engine_manager.py:400-445 | With forced operations allowed, each active count is at least zero and at most the number of live borrows |
| EngineManagerProofs.ReleasedForGood | src/kokoro_tts/engine_manager.py:277-303 | After `close_all` has returned true no later operation makes the manager own an engine |
| EngineManagerProofs.ClosedOwnsNothingNew | src/kokoro_tts/engine_manager.py:58-60 | From the start of closing the owned models only get fewer |
| EngineManagerProofs.CloseAnswer | src/kokoro_tts/engine_manager.py:248-303 | `close_all` answers true if and only if the unload of every engine owned when it began has returned, whatever ran meanwhile; at its end it disowns exactly the engines whose unload returned |
| EngineManagerProofs.FailedReleaseStaysOwned | src/kokoro_tts/engine_manager.py:248-303 | An unload that raised while closing, with any operations before and after it, keeps the answer from being true, and its engine stays owned if it was owned just before the end |
| EngineManagerProofs.RunInv | src/kokoro_tts/engine_manager.py:30-640 | The invariant of the tables is kept by every run of operations |
| EngineManagerProofs.GetGood | src/kokoro_tts/engine_manager.py:457-516 | `get_engine` keeps the invariant in all its branches, and on success the target is owned and, if asked for, loaded, with no other engine loaded |
| EngineManagerBorrows.CountsAreTheLiveBorrows | src/kokoro_tts/engine_manager.py:400-445 | Without forced operations, and with borrows that hand out healthy engines, each active count equals the live borrows, and a borrowed model's engine is owned, loaded and healthy |
| EngineManagerBorrows.NoEngineLoadsItself | src/kokoro_tts/engine_manager.py:400-445 | Without forced operations no borrowed engine finds itself unloaded, so at most one model is loaded |
| EngineManagerHealth.BorrowIsHealthyExactlyWhen | src/kokoro_tts/engine_manager.py:405-421 | However the engines behave, a borrow hands out no unhealthy engine, if and only if the model is not enabled, the manager is closed, the engine asked for is loaded and healthy, or it cannot be had because it or the loaded model is in use |
| EngineManagerHealth.BorrowsAreHealthy | src/kokoro_tts/engine_manager.py:407-421 | If every engine that is built or loaded is healthy, every borrow hands out a healthy engine |
| EngineManagerHealth.UnhealthyReplacementIsHandedOut | src/kokoro_tts/engine_manager.py:412-421 | If every engine comes out unhealthy, a first borrow builds, loads and drops one, builds and loads another, and hands that out |
| EngineManagerSwitch.SwitchMakesCurrent | src/kokoro_tts/engine_manager.py:363-398 | A switch that succeeds makes its target the current model, owned and, if asked for, loaded; one that is refused or fails leaves the current model as it was |
| EngineManagerSwitch.FailedSwitchRollsBack | src/kokoro_tts/engine_manager.py:375-384 | After a failed switch that had freed the model it was to leave, that model is loaded again if and only if it can be had in the state that the failure left |
| EngineManagerSwitch.SwitchFreesPrevious | src/kokoro_tts/engine_manager.py:367-374 | A successful switch that is to unload the model it leaves has done so, if that is idle and its unload returns |
| EngineManagerSwitch.SwitchSparesPrevious | src/kokoro_tts/engine_manager.py:369-374 | A switch that need not load its target leaves the engine of the model it leaves as it is, unless it is to unload that and finds it idle |
| EngineManagerSwitch.EnterMakesCurrent | src/kokoro_tts/engine_manager.py:405-412 | Entering a borrow makes the model current if one model is unloaded for the other, and leaves the current model alone if not |
| EngineManagerSwitch.CurrentChangesOnlyBySwitching | src/kokoro_tts/engine_manager.py:358-412 | In every run the current model changes only with a switch or with the entering of a borrow, only to the model asked for, and with a switch exactly if it succeeds |
| EngineManagerIdle.IdlePassUnloadsExactlyTheIdle | src/kokoro_tts/engine_manager.py:108-130 | In every reachable state the idle pass calls the unload of exactly the loaded models that are not in use, have been unused for at least the positive timeout and are not the protected current model, in dictionary order; each is unloaded if its call returned, and everything else is as it was |
| EngineManagerIdle.UnloadInactiveUnloadsExactly | src/kokoro_tts/engine_manager.py:635-643 | In every reachable state `unload_inactive` calls the unload of exactly the owned models that are idle, or of all if forced, except the current one if that is to stay |
| EngineManagerUse.UsedModelsAreSpared | src/kokoro_tts/engine_manager.py:75-130 | Whatever happens after a load, a borrow or a switch of a model, no idle pass finds it due before the timeout is over |
| EngineManagerUse.ForceClearsTheCount | src/kokoro_tts/engine_manager.py:498-552 | A forced unload or drop that succeeds and a load that fails leave no borrow counted, and without force no count changes |
| EngineManagerUse.CancelTakesTheEngine | src/kokoro_tts/engine_manager.py:554-592 | A cancel that is to kill takes the engine away if and only if its unload returns; any other leaves everything alone, and none touches another engine |
| EngineManagerUse.FinishForgetsTheReleased | src/kokoro_tts/engine_manager.py:261-303 | At its end `close_all` forgets the counts and last uses of exactly the models whose engines it has unloaded |
| EngineManagerProvider.GetGivesWhatWillDo | src/kokoro_tts/engine_manager.py:457-488 | Whatever fails on the way, what `get_engine` hands out is the engine that was there if that is healthy and, for moss, of the provider asked for, and otherwise a new one made for that provider |
| EngineManagerProvider.MossIsOfTheProvider | src/kokoro_tts/engine_manager.py:490-496 | Asked for with a provider, moss never answers for another one |
| EngineManagerProvider.BusyProvidersStay | src/kokoro_tts/engine_manager.py:470-473 | While moss is in use, asking for another provider is refused and leaves its engine alone |
| EngineManagerBorrows.ModelsInUseAreLeftAlone | src/kokoro_tts/engine_manager.py:108-140 | Without forced operations no idle pass, switch, drop, load or unload changes the engine of a model in use |
| EngineManagerBorrows.IdlePendingMeansFailedDrop | src/kokoro_tts/engine_manager.py:595-623 | Without forced operations a pending mark on an idle model means that its last drop failed to unload it |
| EngineManagerBorrows.LastBorrowerCarriesOutTheDrop | src/kokoro_tts/engine_manager.py:424-445 | The last borrower carries out a deferred drop if and only if the engine's unload returns |
| EngineManagerBorrows.PendingGoesOnlyWithItsEngine | src/kokoro_tts/engine_manager.py:604-619 | A pending mark disappears only with the engine it was put on, or when the manager is closed |
| EngineManagerBorrows.DeferredDropIsCarriedOut | src/kokoro_tts/engine_manager.py:422-445 | From the refused drop through any unforced operations to the last borrower's exit: the engine stays as it is and marked, and then goes if and only if its unload returns |
| EngineManagerClass.Manager.constructor | src/kokoro_tts/engine_manager.py:29-52 | A new manager owns the initial engine, if one was given, and nothing else |
| EngineManagerClass.Manager.ActiveCount | src/kokoro_tts/engine_manager.py:79-81 | A model without an entry has no active requests |
| EngineManagerClass.Manager.TouchModel | src/kokoro_tts/engine_manager.py:75-77 | Only the time of last use changes |
| EngineManagerClass.Manager.InvokeUnload | src/kokoro_tts/engine_manager.py:163-168 | One call into the engine; if it raises, the engine may or may not stay loaded |
| EngineManagerClass.Manager.Unload | src/kokoro_tts/engine_manager.py:530-552 | Refuses a busy model unless forced; the engine stays owned; a forced unload clears the count |
| EngineManagerClass.Manager.Drop | src/kokoro_tts/engine_manager.py:595-623 | Refuses or defers for a busy model; otherwise disowns the engine exactly if its unload returned, and marks it pending if not |
| EngineManagerClass.Manager.UnloadOtherLoadedModels | src/kokoro_tts/engine_manager.py:447-455 | Unloads the other loaded models in dictionary order and stops at the first that is busy or cannot be unloaded |
| EngineManagerClass.Manager.Create | src/kokoro_tts/engine_manager.py:483-485 | A created engine is owned and not loaded; a failed creation leaves the tables alone |
| EngineManagerClass.Manager.Load | src/kokoro_tts/engine_manager.py:498-505 | A load marks the engine loaded, or fails and disowns it |
| EngineManagerClass.Manager.DiscardLoad | src/kokoro_tts/engine_manager.py:507-516 | After a failed load the count is cleared and the engine is disowned whether or not its unload raises |
| EngineManagerClass.Manager.Get | src/kokoro_tts/engine_manager.py:457-488 | Making room, replacing the provider, replacing an unhealthy engine, creating and loading, with every way to fail |
| EngineManagerClass.Manager.SwitchTo | src/kokoro_tts/engine_manager.py:358-398 | Switching, with the rollback to the previous model when the new one cannot be had; `EngineManagerSwitch` is about the result |
| EngineManagerClass.Manager.BorrowEngine | src/kokoro_tts/engine_manager.py:400-421 | Entering a borrow: switch or load, replace an unhealthy engine, count |
| EngineManagerClass.Manager.ReturnEngine | src/kokoro_tts/engine_manager.py:422-445 | Leaving a borrow: uncount, and carry out a deferred drop |
| EngineManagerClass.Manager.CheckAndUnloadIdleModels | src/kokoro_tts/engine_manager.py:108-130 | The idle pass over the models in dictionary order, which `EngineManagerIdle` is about |
| EngineManagerClass.Manager.UnloadInactiveModels | src/kokoro_tts/engine_manager.py:635-647 | Unloading all models, busy ones only by force |
| EngineManagerClass.Manager.BeginCloseAll | src/kokoro_tts/engine_manager.py:181-199 | Closing starts with a snapshot of what is owned; with nothing owned it is over at once |
| EngineManagerClass.Manager.ReleaseFromSnapshot | src/kokoro_tts/engine_manager.py:248-259 | One engine of the snapshot is released or fails, even if it is not owned any more |
| EngineManagerClass.Manager.FinishCloseAll | src/kokoro_tts/engine_manager.py:261-303 | What was released and is still the same engine is disowned; the answer says whether that was all |
| StreamFrames.IterFrames | src/kokoro_tts/services/streaming_service.py:115-157 | The frame loop with its cancel checks equals calling the iterator until it ends |
| StreamFrames.EveryEndedStreamHasATerminalFrame | src/kokoro_tts/services/streaming_service.py:142-157 | For any engine events and any cancellation, a run that ends on its own has emitted done, cancelled, error or segment_error |
| StreamFrames.EngineFramesThenAtMostOneRepair | src/kokoro_tts/services/streaming_service.py:120-157 | The frames are exactly the engine's frames before the first cancel check that reads true, then one repair frame exactly when none of them was terminal |
| StreamFrames.UncancelledStreamIsComplete | src/kokoro_tts/services/streaming_service.py:120-157 | Without cancellation nothing is dropped, and only a truncated stream is repaired |
| StreamFrames.ForwardProcessStream | src/kokoro_tts/moss_engine_streaming.py:55-84 | Events of an isolated worker are forwarded unchanged, with one segment_error after a truncated, uncancelled stream |
| StreamFrames.ForwardedHasATerminalFrame | src/kokoro_tts/moss_engine_streaming.py:76-84 | What is forwarded has a terminal frame unless the stream raised or was cancelled; nothing is added to a stream that raised, was cancelled or has one |
| StreamFrames.TwoLayersRepairOnce | src/kokoro_tts/moss_engine_streaming.py:76-84 | The forwarding layer and the service together repair a truncated stream once |
| WsSession.CountedAtMostOnce | src/kokoro_tts/ws/cancel.py:62-76 | In every run a request is counted at most once, never as ok and error, never twice as error |
| WsSession.CountedExactlyWhen | src/kokoro_tts/ws/cancel.py:62-76 | A concluded session counts its request, once and for good, if and only if an error was recorded or neither cancellation flag is set, and as ok if no error was recorded and no flag is set |
| WsSession.OkMeansTheClientGotAnEnding | src/kokoro_tts/ws/streaming.py:197-256 | A request counted as ok had a done or cancelled frame sent to the client, no error frame, and a client that stayed |
| WsSession.PutLandsStep | src/kokoro_tts/ws/streaming.py:45-87 | A put never exceeds the queue's capacity and changes nothing the send loop counts |
| WsSession.RunAgrees | src/kokoro_tts/ws/streaming.py:89-256 | Flags, counters and what was sent agree in every reachable state |
| WsDelivery.HardlyAnythingAfterACancel | src/kokoro_tts/ws/cancel.py:24-40 | After the cancellation notice is queued the client gets at most the chunk being sent and then nothing but the notice |
| WsCancel.CancelStopsTheStream | src/kokoro_tts/ws/cancel.py:32-40 | From the arrival of a client's cancel on, whatever is queued and whatever follows, the client gets at most the chunk being sent and then the cancelled frame; if its connection holds it has got both when the send loop ends |
| WsCancel.NoticeStopsTheStream | src/kokoro_tts/ws/cancel.py:24-44 | The same from the first notice on that the producer schedules for a cancellation from elsewhere |
| WsCancel.CancelledIsNeverOk | src/kokoro_tts/ws/cancel.py:62-64 | A request that its client has cancelled is never counted as ok |
| WsProducer.ClientGetsABeginning | src/kokoro_tts/ws/streaming.py:89-129 | Whatever anybody does, in whatever order, the client gets out of the queue a beginning of the stream as the service yields it, with nothing missing in between, then a failure frame or not, then a cancelled frame or not, and nothing else |
| WsProducer.CancelledProducerPutsNothingNew | src/kokoro_tts/ws/streaming.py:97-109 | Once its request is cancelled the producer puts nothing but what it had decided to put, and after a client's cancel not even a failure |
| WsProducer.ToldProducersPutNothing | src/kokoro_tts/ws/cancel.py:32-49 | After a client's cancel, the loss of the client or a closing down that is no normal end, a producer that is not just putting something puts nothing any more, neither frame nor failure nor marker, whatever follows |
| WsProducer.CancelledProducerGivesNotice | src/kokoro_tts/ws/cancel.py:42-44 | A producer that finds its request cancelled when it ends has the event loop replace the queue by the cancelled frame and the marker |
| WsProducer.UndecodableAudioIsNeverSent | src/kokoro_tts/ws/streaming.py:258-286 | In no run does a binary client get an audio frame that cannot be decoded |
| WsProducer.CancelledBeforeItBegins | src/kokoro_tts/ws/streaming.py:172-196 | A request that is cancelled before its session begins gets nothing and is counted as nothing, whatever follows |
| WsProducer.GoneClientsAreNeverOk | src/kokoro_tts/ws/streaming.py:197-220 | A client that turns out to be gone while the loop waits counts as having cancelled, and its request is never ok |
| WsDelivery.UndisturbedStreamArrives | src/kokoro_tts/ws/streaming.py:89-256 | Engine, service, producer, queue and send loop together: undisturbed, the client gets exactly the repaired stream up to a first cancelled frame, a terminal frame among it, and the request is counted once, as error exactly if an error frame was sent |
| WorkerToClient.FromEngineToClient | src/kokoro_tts/moss_engine_streaming.py:55-84 | From the engine in the worker process to the WebSocket client: an uncancelled, completed worker stream in an undisturbed session hands the client exactly the engine's items, in order, up to a first cancelled frame, repaired once by the child and by no layer above it |
| WorkerToClient.FailureReachesTheClient | src/kokoro_tts/moss_engine_streaming.py:55-84 | If the worker stream raises, the client gets a beginning of what the worker queued under its request and then one error frame |
| WsDelivery.OutputIsDrain | src/kokoro_tts/ws/streaming.py:89-129 | What the producer puts is what the service iterator yields, and one error frame if the iterator raises |
| WsSessionClass.StreamSession.constructor | src/kokoro_tts/ws/session.py:37-55 | A session starts with no flag set and an empty queue |
| WsSessionClass.StreamSession.RecordStreamError | src/kokoro_tts/ws/streaming.py:162-170 | An error is counted the first time only |
| WsSessionClass.StreamSession.ObserveStreamFrame | src/kokoro_tts/ws/streaming.py:246-256 | Only dictionary frames count, done and cancelled as endings, error and segment_error as errors |
| WsSessionClass.StreamSession.SendStreamFrame | src/kokoro_tts/ws/streaming.py:258-286 | A frame that cannot be decoded for binary sending is an error and is not sent |
| WsSessionClass.StreamSession.HandleChunk | src/kokoro_tts/ws/streaming.py:232-244 | One chunk through the send loop, and whether the loop goes on |
| WsSessionClass.StreamSession.HandleMarker | src/kokoro_tts/ws/streaming.py:221-231 | The end marker without a terminal frame is an error unless the request was cancelled |
| WsSessionClass.StreamSession.DrainQueue | src/kokoro_tts/ws/cancel.py:17-22 | The queue is empty afterwards |
| WsSessionClass.StreamSession.NotifyClient | src/kokoro_tts/ws/cancel.py:24-30 | The first notice replaces everything queued by the cancelled frame and the marker; later ones do nothing |
| WsSessionClass.StreamSession.ClientCancelled | src/kokoro_tts/ws/cancel.py:32-40 | A cancel after a terminal frame does nothing; any other marks the request and notifies the client, which `WsCancel` is about |
| WsSessionClass.StreamSession.CancelBackgroundTasks | src/kokoro_tts/ws/cancel.py:46-49 | The producer is told to stop unless the stream ended normally |
| WsSessionClass.StreamSession.FinishSession | src/kokoro_tts/ws/cancel.py:62-76 | The final accounting |
| TextNormalization.NormalizingKeepsVisibleText | src/kokoro_tts/text_segmenter.py:17-25 | Normalising keeps every character that is neither white space nor control, in order, and trims the ends |
| TextNormalization.ParagraphsKeep | src/kokoro_tts/text_segmenter.py:54 | Splitting into paragraphs loses nothing but white space |
| TextNormalization.LinesKeep | src/kokoro_tts/text_segmenter.py:79 | Splitting into stripped, non-empty lines loses nothing but white space |
| TextNormalForm.NormalizedIsNormal | src/kokoro_tts/text_segmenter.py:17-25 | A normalised text has no control characters, tabs or carriage returns, no double spaces, no space next to a newline, no three newlines in a row, and is trimmed |
| TextNormalForm.NormalFormsAreTheFixedPoints | src/kokoro_tts/text_segmenter.py:17-25 | Normalising leaves a text alone if and only if it has that form; normalising twice is normalising once |
| TextNormalForm.LineEndsMakeNoDifference | src/kokoro_tts/text_segmenter.py:20 | A text with its lines ended by carriage returns, or by both characters, is normalised to the same |
| TextNormalForm.BlankLinesDivideAlike | src/kokoro_tts/text_segmenter.py:24-54 | Cutting three newlines or more down to two changes no paragraph |
| TextSegmenter.JoinTextLines | src/kokoro_tts/text_segmenter.py:122-132 | The loop joins the stripped lines, with a blank where English needs one; `TextSeams` is about the seams |
| TextSegmenter.LogicalLines | src/kokoro_tts/text_segmenter.py:95-119 | The grouping of lines under each newline policy |
| TextSegmenter.SentenceUnits | src/kokoro_tts/text_segmenter.py:168-198 | The scan for sentence boundaries |
| TextSegmenter.HardSplitIndex | src/kokoro_tts/text_segmenter.py:239-245 | The search for white space and then for a place outside a word |
| TextSegmenter.BestSplitIndex | src/kokoro_tts/text_segmenter.py:229-245 | The three-stage search for a cut |
| TextSegmenter.SplitLongUnit | src/kokoro_tts/text_segmenter.py:215-226 | The cutting loop, which terminates for every chunk size |
| TextSegmenter.Collector.FlushCurrent | src/kokoro_tts/text_segmenter.py:58-63 | The collected text becomes a segment unless it is blank |
| TextSegmenter.Collector.AppendUnit | src/kokoro_tts/text_segmenter.py:65-76 | A unit is appended, with a blank where English needs one, starts a new segment, or is cut |
| TextSegmenter.Collector.AppendLine | src/kokoro_tts/text_segmenter.py:84-89 | One logical line |
| TextSegmenter.Collector.AppendParagraph | src/kokoro_tts/text_segmenter.py:78-90 | One paragraph |
| TextSegmenter.SegmentTextNatural | src/kokoro_tts/text_segmenter.py:28-92 | The whole segmenter computes the segments the theorems below are about |
| TextSegmenterProofs.SegmentsKeepTheText | src/kokoro_tts/text_segmenter.py:28-132 | For every text, policy and flush mode the segments joined in order are the normalised text cut to the maximum length, up to white space |
| TextSegmenterProofs.SegmentsKeepAllOfAShortText | src/kokoro_tts/text_segmenter.py:28-92 | A text within the maximum length keeps all its visible characters |
| TextSegmenterProofs.SegmentsFit | src/kokoro_tts/text_segmenter.py:65-76 | Every segment is non-empty, trimmed and at most one character over the chunk size, that one being soft punctuation |
| TextSeams.WordsStayWholeAndApart | src/kokoro_tts/text_segmenter.py:28-165 | Under every policy, with or without flushing, the maximal runs of ASCII letters and digits of the segments are those of the kept text, in order, if no sentence is longer than a segment may be |
| TextSeams.SegmentsReadLikeTheText | src/kokoro_tts/text_segmenter.py:65-165 | The segments hold the characters of the kept text; where an English sentence or word ends and the next begins no blank is lost; a blank is added nowhere else, so never beside a character that is not ASCII; for sentences of any length |
| TextPacking.SentencesArePacked | src/kokoro_tts/text_segmenter.py:65-76 | Without flushing no two neighbouring segments of a line would fit into one |
| TextPacking.ParagraphsArePacked | src/kokoro_tts/text_segmenter.py:78-90 | Under the policy that joins all lines this holds of whole paragraphs |
| TextLines.ParagraphsStayApart | src/kokoro_tts/text_segmenter.py:78-92 | No segment spans two paragraphs: each has the segments that it would have alone |
| TextLines.PreservedLinesStayApart | src/kokoro_tts/text_segmenter.py:88-97 | Under the policy that preserves lines no segment spans two of them |
| TextLines.StandaloneLinesEndTheirSegment | src/kokoro_tts/text_segmenter.py:88-89 | Under every policy a list item or a title ends its segment, and what follows is segmented as if nothing had been before |
| TextLines.StandaloneLinesSplitTheGroups | src/kokoro_tts/text_segmenter.py:110-114 | Under the automatic policy a list item or a title is a logical line of its own, and the lines around it are grouped as if the others were not there |
| TextLines.FlowingLinesAreJoined | src/kokoro_tts/text_segmenter.py:115-118 | Other lines become one logical line as long as none ends a sentence with enough text collected |
| TextLines.DueLinesEndTheGroup | src/kokoro_tts/text_segmenter.py:115-118 | The first line that does ends the logical line, and the rest is grouped as if nothing had been before |
| TextLines.AutomaticLinesAreTheGroups | src/kokoro_tts/text_segmenter.py:118-119 | The fallback to the lines themselves is never used |
| TextLines.StandsAloneExactlyWhen | src/kokoro_tts/text_segmenter.py:135-153 | A line stands alone if and only if it begins with a bullet or a number and its mark, or is short, ends no sentence and is English or very short |
| TextLines.PoliciesByName | src/kokoro_tts/text_segmenter.py:49-51 | The two policies are had by their names, in any case and with white space around; everything else is the automatic one |
| TextLines.KeptIsABeginning | src/kokoro_tts/text_segmenter.py:47-52 | What is kept is a beginning of the normalised text, all of it if it is not too long, and never nothing |
| TextSegmenterProofs.FallbackIsNeverUsed | src/kokoro_tts/text_segmenter.py:92 | For a text that is not blank the loops always produce a segment |
| TextSegmenterProofs.FlushingKeepsSentencesApart | src/kokoro_tts/text_segmenter.py:84-87 | With flushing on, the segments are the sentences in order, each cut on its own |
| TextSegmenterProofs.LogicalLinesKeepTheText | src/kokoro_tts/text_segmenter.py:95-119 | Under every policy the logical lines hold the text of the lines in order |
| TextSegmenterProofs.SentencesKeepTheText | src/kokoro_tts/text_segmenter.py:168-198 | The sentences hold the text in order and are non-empty and trimmed |
| SentenceCuts.CutsAreBehindBoundaries | src/kokoro_tts/text_segmenter.py:173-197 | A sentence ends exactly behind each boundary and the closing marks that follow it |
| SentenceCuts.SentencesLieBetweenCuts | src/kokoro_tts/text_segmenter.py:168-198 | The sentences are the stripped, non-blank stretches between those places |
| SentenceCuts.NumbersAndNamesStayWhole | src/kokoro_tts/text_segmenter.py:201-207 | No sentence ends at a full stop between letters or digits, as in decimals, versions and addresses |
| SentenceCuts.AbbreviationsEndNoSentence | src/kokoro_tts/text_segmenter.py:208-211 | No sentence ends at the full stop of a listed abbreviation |
| SentenceCuts.PointsEndSentencesExactlyWhen | src/kokoro_tts/text_segmenter.py:201-212 | A point ends a sentence if and only if it is neither inside a number or name nor the end of an abbreviation, and white space, a closing mark or nothing follows |
| SentenceCuts.RunsEndSentencesAtTheirEnd | src/kokoro_tts/text_segmenter.py:181-182 | A run of dots or dashes ends a sentence once, at its end |
| SentenceCuts.MarksEndSentences | src/kokoro_tts/text_segmenter.py:175-178 | The end of a line and the other full stops always end a sentence |
| SentenceCuts.OnlyMarksEndSentences | src/kokoro_tts/text_segmenter.py:173-197 | Nothing else does |
| SentenceCuts.ClosersStayWithTheirSentence | src/kokoro_tts/text_segmenter.py:184-187 | No closing mark is left behind a cut: it stays with the sentence that it closes |
| TextSegmenterProofs.CutStaysInTheWindow | src/kokoro_tts/text_segmenter.py:229-245 | A cut takes at least the minimum and at most one more than the chunk size, the latter only after soft punctuation or a blank |
| TextSegmenterProofs.CutPrefersSoftPunctuation | src/kokoro_tts/text_segmenter.py:232-238 | If the range holds soft punctuation that may be cut at, the last such place is taken |
| TextSegmenterProofs.CutPrefersBlanks | src/kokoro_tts/text_segmenter.py:232-238 | Without such punctuation the last blank in the range is taken |
| TextSegmenterProofs.CutPrefersWhiteSpace | src/kokoro_tts/text_segmenter.py:239-241 | Without either, the cut is behind the last white space in the range |
| TextSegmenterProofs.CutGoesThroughANumberOnlyWhenItMust | src/kokoro_tts/text_segmenter.py:248-254 | A cut behind a comma or colon between two digits means that the range holds no blank, and no such mark that is not between digits |
| TextSegmenterProofs.NamesAreCutOnlyWhenTheyMust | src/kokoro_tts/text_segmenter.py:242-258 | A cut between two ASCII letters, digits, underscores or hyphens means that the range is all such characters |
| TextSegmenterProofs.CutGoesThroughAWordOnlyWhenItMust | src/kokoro_tts/text_segmenter.py:239-245 | A cut between two word characters is at the minimum index, and everything from there to the end of the range is one word |
| SpanProtection.TokensAreDistinct | src/kokoro_tts/text/protection.py:29-37 | No two indices share a placeholder |
| SpanProtection.LongerTokenComesLater | src/kokoro_tts/text/protection.py:29-37 | If one placeholder begins another, the longer one has the higher index |
| SpanProtection.MakeToken | src/kokoro_tts/text/protection.py:29-37 | The spelling loop |
| SpanProtection.RestoreUndoesProtect | src/kokoro_tts/text/protection.py:40-58 | Restoring a protected text gives the text back, for any patterns and passes, including matches that swallow or cut earlier placeholders, if each placeholder is unique just after it is put in |
| SpanProtection.PlainTextsComeBack | src/kokoro_tts/text/protection.py:40-58 | A text free of the marker's tail, with at most 26 protected spans, always comes back |
| SpanLimits.StepComesBackExactlyWhen | src/kokoro_tts/text/protection.py:54-58 | For one placeholder, taking it out undoes putting it in if and only if that is the first occurrence and all others begin inside it, or the original is the placeholder, or the original reads on across an overlapping first occurrence |
| SpanLimits.RunComesBack | src/kokoro_tts/text/protection.py:40-58 | In every run each step comes back exactly when it is undoable in that sense, and if all are, the text comes back |
| SpanLimits.OneSpanComesBackExactlyWhen | src/kokoro_tts/text/protection.py:40-58 | A text with one span comes back if and only if that step is undoable |
| SpanLimits.WrongStepsCanComeBack | src/kokoro_tts/text/protection.py:54-58 | A text that holds the second placeholder twice can come back although its second step does not: two wrong steps cancel out |
| SpanLimits.PassFinds | src/kokoro_tts/text/protection.py:43-50 | One pass adds one span for each match, in order, with the matched text and the next placeholder |
| SpanLimits.FewMatchesComeBack | src/kokoro_tts/text/protection.py:40-58 | With one pattern, a text free of the marker's tail and with at most 26 matches comes back |
| SpanLimits.PlaceholderInTheTextIsLost | src/kokoro_tts/text/protection.py:54-58 | A text that begins with the first placeholder does not come back: both occurrences become the protected span |
| SpanLimits.CpuIsLost | src/kokoro_tts/text/protection.py:12-13 | "ANGEPROTECTEDA CPU" comes back as "CPU CPU" |
| SpanLimits.TwentySevenSpansAreLost | src/kokoro_tts/text/protection.py:29-37 | With 27 or more version numbers and a B behind the first, the first one is lost, although the text holds no part of a placeholder |
| SpanProtection.ReplaceOnce | src/kokoro_tts/text/protection.py:57 | Replacing a placeholder that occurs once changes that place only |
| SpanProtection.Substitute | src/kokoro_tts/text/protection.py:43-50 | One pass of substitution puts one placeholder after another in place of the matches |
| SpanProtection.ProtectSpans | src/kokoro_tts/text/protection.py:40-51 | The loop over the patterns |
| SpanProtection.RestoreSpans | src/kokoro_tts/text/protection.py:54-58 | The loop over the spans, last one first |
| SilenceCompression.CompressLongSilence | src/kokoro_tts/moss_runtime/audio.py:268-320 | The loop equals the run-by-run specification and reports the runs above the limit, the longest run and the share of silence; a limit of zero disables it |
| SilenceCompression.AnalyzeSilence | src/kokoro_tts/moss_runtime/audio.py:323-352 | The report without compression, counting runs of a second or more |
| SilenceCompression.CompressionKeepsSpeech | src/kokoro_tts/moss_runtime/audio.py:290-315 | Every frame above the threshold is kept in order, and none is added |
| SilenceCompression.PausesAreCapped | src/kokoro_tts/moss_runtime/audio.py:296-312 | The pauses keep their number and order, each cut to the limit and otherwise unchanged |
| SilenceCompression.ChangesExactlyLongPauses | src/kokoro_tts/moss_runtime/audio.py:306-312 | A signal is changed if and only if some pause is longer than the limit |
| SilenceCompression.CompressionIsIdempotent | src/kokoro_tts/moss_runtime/audio.py:268-320 | Compressing again changes nothing |
| SilenceCompression.PausesLastAtMost | src/kokoro_tts/moss_runtime/audio.py:281-312 | No pause of the compressed signal lasts longer than the limit in milliseconds, and one that did not is not shortened |
| SilenceCompression.LimitInTime | src/kokoro_tts/moss_runtime/audio.py:281 | The limit in frames is the longest that lasts at most the limit in milliseconds |
| SilenceCompression.ReportIsTrue | src/kokoro_tts/moss_runtime/audio.py:316-320 | The report has the number of long pauses, the length of the longest one in milliseconds and the share of quiet frames |
| SilenceCompression.ReportTellsOfChanges | src/kokoro_tts/moss_runtime/audio.py:306-320 | The report counts a long pause if and only if the signal was changed |
| Crossfade.CrossfadeConcat | src/kokoro_tts/moss_runtime/audio.py:206-222 | The loop joins the non-empty parts one after the other; with none it fails |
| Crossfade.AppendPart | src/kokoro_tts/moss_runtime/audio.py:214-221 | One join, cut together from three pieces |
| Crossfade.LengthIsSumMinusOverlaps | src/kokoro_tts/moss_runtime/audio.py:213-221 | The result is as long as the parts minus the overlaps used, overlaps of one sample or less counting as none |
| Crossfade.NeverLouderThanTheParts | src/kokoro_tts/moss_runtime/audio.py:218-221 | No sample is larger in magnitude than the largest sample of the parts |
| Crossfade.FadeMeetsBothParts | src/kokoro_tts/moss_runtime/audio.py:218-221 | Outside the fade both parts are untouched, and the fade starts at the left part and ends at the right part |
| Crossfade.FadeIsLinear | src/kokoro_tts/moss_runtime/audio.py:218-219 | The fade goes from nothing to all in equal steps |
| Crossfade.AgreeingPartsAreKept | src/kokoro_tts/moss_runtime/audio.py:220 | Where both parts agree over the fade, the joined sound is that of the parts |
| Crossfade.FadeIsAsLongAsItCanBe | src/kokoro_tts/moss_runtime/audio.py:214-217 | The fade is as long as wanted or as one of the parts, whichever is shortest, and there is none below two samples |
| Crossfade.EmptyPartsAreLeftOut | src/kokoro_tts/moss_runtime/audio.py:209 | Empty parts make no difference, and no other part is left out |
| Crossfade.NoFadeIsConcatenation | src/kokoro_tts/moss_runtime/audio.py:215-217 | Without a fade the parts are put one behind the other |
| FrameBatching.FrameBudget | src/kokoro_tts/moss_runtime/streaming.py:20-41 | The budget is 1, 2, 4 or 8, and 1 before the first audio |
| FrameBatching.BudgetGrowsWithTheLead | src/kokoro_tts/moss_runtime/streaming.py:31-41 | A larger lead never gives a smaller budget, whatever the thresholds |
| FrameBatching.LeadIsWhatIsNotPlayed | src/kokoro_tts/moss_runtime/streaming.py:31-34 | The lead is what was emitted and cannot have been played since the first audio |
| FrameBatching.BudgetBands | src/kokoro_tts/moss_runtime/streaming.py:28-41 | The budget is at least 2, 4 or 8 if and only if the lead has reached the low, middle or high threshold |
| FrameBatching.FrameBatcher.Decode | src/kokoro_tts/moss_engine_streaming.py:410-425 | Decodes nothing, the budget, or everything when forced |
| FrameBatching.FrameBatcher.Accept | src/kokoro_tts/moss_engine_streaming.py:442-446 | Takes a frame and decodes what is due, or raises on cancellation before taking it |
| FrameBatching.FrameBatcher.DecodeChunk | src/kokoro_tts/moss_engine_streaming.py:448-452 | All frames of a chunk and the forced call at the end |
| FrameBatching.BatchesAreTheFrames | src/kokoro_tts/moss_engine_streaming.py:405-452 | For every sequence of budgets the batches joined are exactly the frames, and nothing waits at the end |
| FrameBatching.NoFrameIsLost | src/kokoro_tts/moss_engine_streaming.py:410-446 | At any time what was decoded and what waits are the frames so far, in order |
| FrameBatching.AtMostSevenFramesWait | src/kokoro_tts/moss_engine_streaming.py:415-424 | With the streaming budgets at most seven frames wait after any frame, and no batch has more than eight |
| FrameBatching.FixedBudgetBatchesAreFull | src/kokoro_tts/moss_engine.py:889-910 | With a fixed budget every batch before the forced one has exactly that size |
| TokenBuckets.GrantsInAnyWindow | src/kokoro_tts/rate_limit.py:40-49 | Whatever happened before, the calls of a window are granted at most the burst plus what flows in during it |
| TokenBuckets.RetryAfterIsExact | src/kokoro_tts/rate_limit.py:51-56 | A refused caller is served if and only if the bucket refills and it has waited as long as it was told |
| TokenBuckets.HeaderIsLongEnough | src/kokoro_tts/rate_limit.py:112-121 | The whole seconds of the header are longer than that wait |
| TokenBuckets.AnsweredIsNotIdle | src/kokoro_tts/rate_limit.py:58-61 | A bucket that has answered is not idle |
| BucketRegistry.SweepsResetNobody | src/kokoro_tts/rate_limit.py:77-93 | A sweep takes no bucket that has answered; a new bucket lasts if and only if no sweep was due when it was made |
| BucketRegistry.ServedAsByABucket | src/kokoro_tts/rate_limit.py:77-93 | A client with a bucket is served as by a bucket of its own, whoever else asks and whenever sweeps run |
| BucketRegistry.ClientsAreLimited | src/kokoro_tts/rate_limit.py:104-122 | A client with a bucket gets at most the burst plus what flows in, in any window |
| TokenBuckets.PatientBucketsGrant | src/kokoro_tts/rate_limit.py:40-49 | A caller that waits as long as one token takes to flow in is always granted one |
| BucketRegistry.PatientClientsAreServed | src/kokoro_tts/rate_limit.py:77-110 | Whatever others do, a client that asks no more often than the configured rate is never refused |
| BucketRegistry.NewClientsAreServed | src/kokoro_tts/rate_limit.py:33-38 | A new client is served at once, with a bucket that holds the configured burst |
| BucketRegistry.ServedIsUniform | src/kokoro_tts/rate_limit.py:77-84 | Every client keeps getting a bucket with the configured rate and burst |
| BucketRegistry.NewClientsAreLimited | src/kokoro_tts/rate_limit.py:104-122 | A client without a bucket gets, in any window, at most the burst plus what flows in plus one for each time it is forgotten |
| BucketRegistry.NewClientIsLimitedExactlyWhen | src/kokoro_tts/rate_limit.py:77-93 | For a client without a bucket the burst and the flow are the limit, whatever follows, if and only if no sweep is due at its first request |
| BucketRegistry.OneMoreThanTheBurst | src/kokoro_tts/rate_limit.py:77-93 | For every burst, a client that first asks while a sweep is due is served one request more than its burst at one moment |
| BucketRegistry.ForgottenOnceWithinAnInterval | src/kokoro_tts/rate_limit.py:86-93 | Within less than the cleanup interval a client is forgotten at most once |
| BucketRegistry.ForgottenAtEverySweep | src/kokoro_tts/rate_limit.py:77-93 | A client that asks only when a sweep is due is forgotten and served every time |
| BucketRegistry.SweepForgetsANewClient | src/kokoro_tts/rate_limit.py:77-93 | An instance: with a burst of one, at whatever rate, such a client is served twice at one moment |
| RateLimiter.TokenBucket.constructor | src/kokoro_tts/rate_limit.py:33-38 | A new bucket is full, with a burst of at least one and no negative rate |
| RateLimiter.TokenBucket.Acquire | src/kokoro_tts/rate_limit.py:40-49 | Refill, then take a token if there is one |
| RateLimiter.TokenBucket.SecondsToWait | src/kokoro_tts/rate_limit.py:51-56 | The wait that is announced |
| RateLimiter.Registrar.MaybeCleanup | src/kokoro_tts/rate_limit.py:86-93 | The sweep removes the idle buckets once its interval has passed and changes no bucket |
| RateLimiter.Registrar.GetBucket | src/kokoro_tts/rate_limit.py:77-84 | The caller gets the client's own bucket, shared with no other client |
| RateLimiter.Registrar.Dispatch | src/kokoro_tts/rate_limit.py:104-110 | One request: the objects end up in the state the registry's specification gives |
| PcmFraming.PcmFramer.NormalizePcm | xiaozhi/adapters/angevoice_stream.py:296-316 | With equal layout the complete sample groups come out and the rest is kept |
| PcmFraming.PcmFramer.DrainPcmBuffer | xiaozhi/adapters/angevoice_stream.py:366-371 | Every complete frame is encoded, in order |
| PcmFraming.PcmFramer.PushAudioBytes | xiaozhi/adapters/angevoice_stream.py:273-281 | One chunk, after which less than a group and less than a frame wait |
| PcmFraming.PcmFramer.FlushSourcePcmBuffer | xiaozhi/adapters/angevoice_stream.py:355-361 | An incomplete sample group is discarded |
| PcmFraming.PcmFramer.FlushPcmBuffer | xiaozhi/adapters/angevoice_stream.py:375-383 | An incomplete frame is padded with zeros and encoded |
| PcmFraming.PcmFramer.StreamText | xiaozhi/adapters/angevoice_stream.py:195-209 | One text: the chunks and then both flushes, or the chunks up to an error and no flush |
| PcmFraming.FramesOfAText | xiaozhi/adapters/angevoice_stream.py:195-209 | The frames of a text are those of its bytes behind what was left waiting |
| PcmFraming.FramesDependOnBytesOnly | xiaozhi/adapters/angevoice_stream.py:273-383 | With nothing left waiting, the frames of a text depend only on its joined bytes, not on how they were cut into chunks |
| PcmFraming.EncoderGetsTheWholeSamples | xiaozhi/adapters/angevoice_stream.py:355-383 | With nothing left waiting, every frame has the encoder's size, and joined they are the whole sample groups followed by less than a frame of zeros |
| PcmFraming.OnlyTheLastFlushEndsTheStream | xiaozhi/adapters/angevoice_stream.py:366-383 | No text, complete or broken off, ends the encoder's stream; the final flush does, with its one call, if anything is left |
| PcmFraming.OwnFramesExactlyWhenNothingWaits | xiaozhi/adapters/angevoice_stream.py:291-294 | A text has its own frames, whatever its chunks, if and only if nothing was left waiting before it |
| PcmFraming.BrokenTextLeadsTheNext | xiaozhi/adapters/angevoice_stream.py:195-209 | What a text that broke off leaves behind comes out in front of the next text |
| AssetLocks.SortedIsAscending | src/kokoro_tts/zipvoice/assets.py:219-221 | The locks are taken in strictly ascending order, each once, and all of them |
| AssetLocks.WorkIsExclusive | src/kokoro_tts/zipvoice/assets.py:224-229 | Two managers at work have no file in common |
| AssetLocks.GivingUpFreesItsLocks | src/kokoro_tts/zipvoice/assets.py:222-229 | A manager that gives up leaves no lock behind and takes none from the others |
| AssetLocks.NeverStuck | src/kokoro_tts/zipvoice/assets.py:208-229 | In every reachable state with an unfinished manager some unfinished manager can take a step without giving up |
| AssetLocks.AllCanFinish | src/kokoro_tts/zipvoice/assets.py:208-229 | From every reachable state all managers can finish without anyone giving up |
| ZipVoiceAssets.EnsureAsset | src/kokoro_tts/zipvoice/assets.py:177-206 | One asset: check, download, check, record |
| ZipVoiceAssets.EnsureLocked | src/kokoro_tts/zipvoice/assets.py:231-252 | The loop over the manifest stops at the first failure, and only without one the records are saved |
| ZipVoiceAssets.OneAssetIsVerifiedOrUntouched | src/kokoro_tts/zipvoice/assets.py:154-206 | A failure leaves the file as it was; a success leaves a file with the recorded digest, which is the declared or learned one if there is one; a file with a known digest is never replaced |
| ZipVoiceAssets.UnknownFilesAreFetchedAnew | src/kokoro_tts/zipvoice/assets.py:186-192 | A file whose digest is neither declared nor learned is fetched anew, as if it were not there |
| ZipVoiceAssets.DeclaredDigestsRule | src/kokoro_tts/zipvoice/assets.py:179-185 | A declared digest rules over a learned one |
| ZipVoiceAssets.LearningIsPerSource | src/kokoro_tts/zipvoice/assets.py:34-40 | What was learned from one source is not known of another |
| ZipVoiceAssets.EnsuredIsReady | src/kokoro_tts/zipvoice/assets.py:131-152 | After a successful ensure a full verification finds every file ready |
| ZipVoiceAssets.EnsuredOnceIsPinned | src/kokoro_tts/zipvoice/assets.py:34-40 | Ensuring the same manifest again succeeds without a download and changes no file, whatever the downloader would deliver |
| ZipVoiceAssets.TamperingIsReported | src/kokoro_tts/zipvoice/assets.py:231-252 | A file off its recorded digest, anywhere in the manifest, makes the ensure fail; no file from there on is touched and no record is saved |
| PromptCache.Cache.Lookup | src/kokoro_tts/moss/prompt.py:108-112 | A hit makes its key the newest |
| PromptCache.Cache.Store | src/kokoro_tts/moss/prompt.py:128-133 | Storing makes the key the newest and evicts the oldest ones beyond the limit |
| PromptCache.Cache.Resolve | src/kokoro_tts/moss/prompt.py:84-134 | A call returns the cached codes or the runtime's, and stores the latter |
| PromptCache.CacheHoldsTheMostRecentKeys | src/kokoro_tts/moss/prompt.py:108-133 | However calls interleave, the cache holds exactly the most recently used keys in order of use, never more than the limit |
| PromptCache.HitsAreGenuine | src/kokoro_tts/moss/prompt.py:108-112 | What is found in the cache is what the runtime would return for that key |
| PromptCache.NoLimitNoCache | src/kokoro_tts/moss/prompt.py:128 | A limit of zero or less stores nothing |

## Left out

- Model inference, codecs, resampling, file formats and FFmpeg: engines are objects whose calls may fail, audio is
  sequences of samples, frames or bytes.
- Routes, authentication, admin pages, browser code, configuration, packaging: plumbing and tables.
- The worker protocol is stated on values, because two processes interleave between single statements; only the parent's
  fields and the loops that run on one side also appear as an object and as methods (`WorkerLoops`). Failures to pickle a
  payload, the client's health and metadata fields and the texts of exit reasons are not modelled, nor is a request lock
  taken again by the thread that holds it.
- A step of the protocol may end a stream at any point of its loop, where the generator can be closed only at a yield; so
  the runs of the model include all of the program's and some more.
- Queue puts to the child succeed; a queue loses its contents only when it is replaced.
- Engines are values with a serial number in place of object identity. An engine becomes loaded through the manager
  or, while it is borrowed, by itself, and is not loaded after an unload that returned. That a borrower may still hold an
  engine that the manager has dropped since does not appear, as the manager's tables do not have it.
- Alias resolution and the provider policy are a set of enabled models and a provider hint; `drop_matching` is a run of
  drops; the waiting of one `close_all` for another and the drain time before the release are left out, the drain by
  letting any operation happen in between.
- An unforced drop for a provider change whose unload failed leaves the manager without the old engine's release: the model
  follows the code, and no theorem speaks about the abandoned engine.
- The send loop of a WebSocket session appears as steps, since other tasks run at each of its waits; its methods are the
  stretches between waits. A put lands at once or fails: the retry loop, in which a timed-out put may still land, is not
  modelled.
- WorkerLoops.Client.CloseByKilling: covers the killing path of closing only; the graceful shutdown, with its command and
  its receipt, is the steps `BeginClose` and `FinishClose` of the protocol.
- The messages that the send loop makes up itself, progress notices and the texts of errors it has found, are not among the
  frames sent; what it records with them is.
- StreamFrames.ForwardProcessStream: does not model the index in the repair frame, which no other layer reads.
- Regular expressions are their results: the placeholder patterns are arbitrary, the segmenter's are written out.
- Properties of characters other than white space, control characters and ASCII are parameters of the segmenter.
- The 0.55 and 0.45 of the segmenter are computed exactly; for chunk sizes that fit a float this is what the code computes.
- Crossfade.CrossfadeConcat: states one channel in real arithmetic; the channels are treated alike and rounding is not the
  point.
- SilenceCompression.CompressLongSilence: takes the loudness threshold as a number, not in decibels, and computes with
  reals.
- Trimming silence at the edges, splitting a waveform into chunks of equal length, and the edge fade: a slice each.
- FrameBatching: the clock and the emitted samples enter through the budget of each frame, which is arbitrary.
- RateLimiter.Registrar.Dispatch: one request at a time, as in the event loop; the choice of the client key and the
  concurrency gate are not modelled.
- SpanLimits.RunComesBack: goes one way for the whole run, as two wrong steps can make a right run
  (`SpanLimits.WrongStepsCanComeBack`); it is exact for each step and for texts with one span.
- PcmFraming.PcmFramer.NormalizePcm: covers equal source and target layout; conversion of rate or channels is not part of
  this model, and neither is a layout that changes in the middle of a text.
- AssetLocks: lock files are places in one order; a lock is only ever held by one of the managers, and each manager ensures
  its files once.
- ZipVoiceAssets: digests are opaque, a record that is malformed or not verified is no record, and the status file is
  written whole. Pins across different manifests are not claimed, as each ensure keeps only its own records.
- PromptCache: preparing the reference audio is part of what the runtime does for a key.
