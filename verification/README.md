# Aulay: a verified model

Aulay keeps Bluetooth audio playback connections to a PC: it queues connection requests, opens
one connection at a time, prepares the Bluetooth radio by switching it off and on, closes old
connections in the background and cycles their audio endpoints. Around that it keeps diagnostic
journals, a settings file and a translation catalogue. This project models those parts and proves
what they promise.

The centre is the connection protocol, as a transition system (`Protocol`). Everything between two
awaits on the UI thread is one atomic step; user clicks, watcher events, Closed callbacks and
shutdown may come between any two of them, and the connection-creation workers, the closers and
the endpoint workers take steps of their own at any time. The attempt in flight carries an explicit
program counter, so the window between taking a request out of the queue and emplacing its session
is there. What an outside party answers is a parameter of the step. `AppRuntime` is the same state
as an object that is updated in place: one method per function, or per segment between two awaits,
written with the source's assignments and loops, proved to take exactly the protocol's step and to
keep the joint invariants, and stating what its caller may rely on afterwards (`AppSteps`) and which
answer it gives to which state (`AppAnswers`).

A device is called quiet when it has no session, no queued request and nothing in flight that could
still connect it, and cannot be queued automatically.

How the proofs are layered:

| module | what it holds |
|---|---|
| `Numbers`, `Wrappers`, `Records`, `ConnectionCreation`, `RadioTransaction`, `EndpointCycle` | records and request rules; the creation hand-off; the radio and endpoint transactions |
| `Protocol` | the state, every step, and what enables it |
| `ProtocolCore`, `ProtocolFlows`, `ProtocolLinks` | three joint invariants, each kept by every group of events |
| `ProtocolFrames` | what one step can touch |
| `ProtocolSteps` | what every step keeps: the invariants, the frame of an attempt's segment; stale continuations |
| `ProtocolRuns`, `ProtocolPlayback`, `ProtocolHistory`, `ProtocolGate` | theorems over whole runs |
| `ProtocolRequests`, `RequestLife`, `RequestRuns` | how requests are answered, taken up and retried; what can end one, by step and over whole runs |
| `AppAnswers`, `AppSteps`, `AppRuntime`, `RequestQueue` | what each segment answers to the state it finds; what one step guarantees its caller; the imperative form of the steps; the order of service |
| `RecoveryPolicy` | the incremental silence monitor against its declarative verdict |
| `Journal`, `JournalRuns`, `MonitorQueue`, `LogQueue` | the diagnostic journal, its runs, and the two log queues |
| `SettingsStore`, `SettingsSaver` | the two-place settings store and the coalescing saver |
| `Catalogue` | the hash, the catalogue writer and the loader |

`dafny verify dfyconfig.toml` checks everything.

Five promises hold only under a condition, and each is proved with its exact one. A load finds the
last save exactly when the other place's file does not outrank it
(`SettingsStore.LoadFindsLastSaveExactly`; a clock that stands still loses a fallback save). Marker
retention deletes the file of an open bundle exactly when the bundle 20 markers back is still open,
which takes failed creations (`JournalRuns.RetentionDeletesOpenFileExactly`, with a run that does
it). The log queue writes everything it accepted exactly when no write fault had an entry in its
batch or in the queue and nothing was accepted after a fault (`LogQueue.WrittenExactly`), and the
monitor's event queue likewise processes everything exactly when no exception ended its thread with
events at hand or to come (`MonitorQueue.NothingAcceptedIsLost`, with a run that loses one in
`MonitorQueue.ExceptionLosesAcceptedEvents`). The shutdown drain of the settings keeps its promise
in the application (`SettingsSaver.CompleteMeansOnDisk`); what its functions guarantee to any caller
is `SettingsSaver.DrainReportsExactly`.

## Model

| member | source | states |
|---|---|---|
| ProtocolSteps.CoreStep | ConnectionFlow.hpp:657-883 | Every step of every interleaving keeps the joint invariant: one queued request per device, queue and sessions disjoint, current generations everywhere, at most one unconnected session and it belongs to the attempt in flight, a queue outside shutdown always has its worker, recovery in progress means the attempt is suspended in it |
| ProtocolRuns.QueueAndSessionsAgree | ConnectionFlow.hpp:771-883 | The same facts spelled out for every state of every run |
| ProtocolRuns.EveryStateIsSafe | ConnectionFlow.hpp:215-648 | All three joint invariants hold in every reachable state |
| ProtocolSteps.FlowsStep | ConnectionFlow.hpp:33-98 | Every unfinished flow is the task entry of its device or behind it by predecessor links, a finished flow has only finished predecessors, and during a recovery every flow that may still cycle is still to be awaited |
| ProtocolFlows.FinishedBehind | AudioFlowRecovery.hpp:211-217 | Waiting for one flow waits for everything behind it |
| ProtocolFlows.SnapshotCovers | BluetoothRecovery.hpp:245-254 | The snapshot of the task map taken before Off covers every flow that may still cycle |
| ProtocolRuns.NoCycleInTransactions | BluetoothRecovery.hpp:240-263 | While the radio transaction runs, no endpoint cycle runs and none can begin |
| ProtocolSteps.LinksStep | ConnectionFlow.hpp:390-413 | Every step keeps every open connection object in exactly one kind of hands: a creation, a session, or a retired session's closer |
| ProtocolSteps.OneOpenLinkPerDevice | ConnectionFlow.hpp:57-98 | Two open connection objects of one device are the same object |
| ProtocolRuns.OneOpenLink | ConnectionFlow.hpp:33-98 | So in every run each device has at most one connection object that is not closed |
| ProtocolRuns.CreationsNeverOverlap | ConnectionFlow.hpp:227-235 | Two unfinished creations for one device never coexist |
| ProtocolRuns.CyclesAreAllowed | AudioFlowRecovery.hpp:367-489 | In every run an endpoint is cycled only by an authorized repair, or as the requested cleanup of a connection that is closed by then |
| ProtocolSteps.AttemptStaysInFrame | ConnectionFlow.hpp:215-648 | A segment of an attempt touches its own device only, adds nothing to the queue, keeps its identity, and changes no session once its generation was retired; during a recovery it adds no session |
| ProtocolSteps.StaleContinuationTouchesNothing | ConnectionFlow.hpp:145-151 | A continuation carrying a retired generation changes no session, queues nothing and desires nothing |
| ProtocolFrames.LostMeansCancelled | ConnectionFlow.hpp:581-587 | An attempt that finds its session gone always reports Cancelled, so it is never retried |
| ProtocolFrames.ClosedReportActsOnItsOwnSession | ConnectionFlow.hpp:153-211 | A Closed callback acts only on the connected session holding exactly its generation and connection, then only removes it, and outside a recovery also defers recovery and suppresses reconnecting; any other Closed callback changes nothing |
| ProtocolFrames.EnqueueFramed | ConnectionFlow.hpp:657-749 | Enqueueing for a device leaves every other device's request, session, generation and suppression alone, and what it queues is a kept request, the retry it was given, or a new one |
| ProtocolPlayback.QuietStep | ConnectionFlow.hpp:885-911 | A device without session, request, usable attempt or way to be queued automatically stays so through every step but an accepted click |
| ProtocolPlayback.SilencedIsQuiet | ConnectionFlow.hpp:188-198 | A remote close processed outside recovery, and a disconnect, both leave the device in that state |
| ProtocolPlayback.PlaybackIsNeverReclaimed | ConnectionFlow.hpp:112-198 | After either, no session or queued request for the device exists in any later state of the run until a Quick or Forced request for it is accepted |
| ProtocolRequests.EnqueueAnswers | ConnectionFlow.hpp:671-749 | Every request is answered as its gates say, whatever the state: turned away (empty id, stopping, Automatic for a suppressed device or during a recovery, a session unless it is connected and the request Forced) with nothing changed; else exactly one new request, one taken over, or the retry it brought, with the whole new state written out |
| ProtocolRequests.AcceptedClickIsServed | ConnectionFlow.hpp:675-711 | User intent is never dropped: an accepted Quick or Forced click leaves its device with exactly one request, the click's: first try, due at once, next generation, newest id, strategy by the device's sets; the device is neither suppressed nor pending nor connected, and a worker runs |
| ProtocolRequests.RefusedClickDoesNothing | DeviceListUi.hpp:296-328 | Any other click changes nothing, except the first button's disconnect |
| ProtocolRequests.ReconnectAnswers | ConnectionFlow.hpp:900-911 | An Automatic request is queued exactly when reconnecting is on, nothing stops, no recovery runs and the device is pending, unsuppressed, without session or request; otherwise nothing changes |
| ProtocolRequests.HeadAnswers | ConnectionFlow.hpp:776-810 | A turn of the loop, exactly: left, waited out, or the first of the earliest due requests leaves the queue and its attempt begins; none is discarded |
| ProtocolRequests.TurnAnswers | ConnectionFlow.hpp:816-861 | A turn ends with a retry exactly when its answer is neither success, cancellation nor denial, nothing superseded the attempt and it is Direct or has a preparation left that was not denied or cancelled; the retry keeps generation, id, mode and budget, counts one try more and waits 200 ms doubled per retry up to five minutes |
| RequestRuns.RetriesExactly | ConnectionFlow.hpp:836-861 | The same for every turn of every run, where the suppression of the device never stands in the way |
| RequestRuns.EveryStateIsUnmuted | ConnectionFlow.hpp:673-681 | In every run no Automatic request is in line for a suppressed device, and none is in flight but a superseded or just successful one |
| RequestRuns.EndedForGood | ConnectionFlow.hpp:836-866 | An attempt whose turn ended without a retry is never live again |
| RequestRuns.FinalAnswersAreFinal | ConnectionState.hpp:211-214 | In particular one that was denied by the system, succeeded or was cancelled |
| RequestRuns.RequestsAreNotLost | ConnectionFlow.hpp:788-866 | From any state of any run on a request stays in line or in flight under its id, with its device, generation, mode and flags, until the shutdown clears it, a click on its queued device disconnects or overrides it, or a turn of its own earns no retry |
| RequestRuns.LiveUntilEnded | ConnectionFlow.hpp:788-866 | And exactly until then: a live request is live in a later state if and only if none of these happened in between |
| RequestRuns.ForcedInterruptsFirst | ConnectionFlow.hpp:269-290 | In every run a Forced attempt that never prepared goes, once past its checks, straight into a preparation that may interrupt live playback |
| RequestRuns.AutomaticSparesPrepared | ConnectionState.hpp:194-200 | In every run an Automatic request for a device that counted as prepared when accepted never starts a preparation, through all its retries |
| ProtocolHistory.PreparationBudget | ConnectionFlow.hpp:271-293 | Over its whole retry chain an attempt starts at most two preparations and is released from preparing at most once |
| ProtocolHistory.WhyDirect | ConnectionState.hpp:194-209 | A live request is Direct exactly when its device was prepared, it is not Forced and not Quick after a remote close, or its own attempt has prepared successfully or found another stream to protect; its counter is the number of preparations really started |
| ProtocolHistory.DeviceSetsTellHistory | BluetoothRecovery.hpp:276-282 | A device is prepared iff its latest started preparation succeeded, and deferred iff a remote close outside recovery came after its latest successful preparation |
| ProtocolHistory.FreshRequests | ConnectionState.hpp:194-200 | A newly accepted request has a new id no history mentions and a full budget, and is to be prepared exactly when its device's latest started preparation did not succeed, or it is Forced, or it is Quick and a remote close came after the latest successful preparation |
| ProtocolHistory.AttemptsNeverRegress | ConnectionFlow.hpp:836-855 | Through any number of retries an attempt id names one attempt: device, generation, mode and flags stay, the preparation counter never shrinks, the strategy never leaves Direct |
| ProtocolHistory.ToldStep | ConnectionFlow.hpp:193-196 | Every step keeps the history's account of the device sets and the budgets |
| ProtocolHistory.HistoryTells | ConnectionFlow.hpp:271-293 | So the account holds in every state of every run |
| ProtocolGate.RecoveryOnlyLosesSessions | BluetoothRecovery.hpp:203-263 | While a recovery goes on no session is added or relabelled, so none becomes Connected |
| ProtocolGate.RecoveryEntersThroughGate | BluetoothRecovery.hpp:203-226 | A recovery begins only at the gate, and only without live playback or for the first preparation of a Forced request |
| ProtocolGate.TransactionSparesLivePlayback | BluetoothRecovery.hpp:203-263 | When a transaction starts, every Connected session was there at its gate with a link that read Closed, or it is the first preparation of a Forced request and no session is Connected |
| ProtocolGate.NeverJoins | BluetoothRecovery.hpp:215-222 | The branch that joins an active recovery is unreachable, and a recovery past the gate never answers NotRequired |
| RadioTransaction.TransactionGuarantees | BluetoothRecovery.hpp:91-194 | For every pattern of failures: at most one Off and one On in that order, On whenever Off may have been sent, Success iff both were confirmed, waits within the deadline plus 8000 ms; and an exact condition on the script for each of the ten answers, an answer of the off half standing unless the radio was touched and could not be turned on again |
| RadioTransaction.RunTransaction | BluetoothRecovery.hpp:91-194 | The imperative transaction answers each of its ten results exactly under its condition on the script; it issues nothing, a lone On, or Off then On, and Off only where access, a readable radio that is on and the deadline allow it; it returns within the deadline plus 8000 ms |
| RadioTransaction.RunOffHalf | BluetoothRecovery.hpp:101-150 | The first try block: each of its eight answers exactly under its condition on the script; it asks for Off exactly when nothing failed or was cancelled up to there and the radio reads on, ends with Off confirmed exactly when the radio was found off or the request was allowed and seen in time, and never issues On |
| RadioTransaction.RequestOff | BluetoothRecovery.hpp:124-142 | Off counts as sent as soon as it is asked for, and as confirmed only if the request and the sight of it both came in time; the waits stay within the off deadline |
| RadioTransaction.RunOnHalf | BluetoothRecovery.hpp:152-185 | The compensation sends On exactly once for every Off that may have been sent, and otherwise only for a radio found off and not read on; On is confirmed exactly when it was allowed and seen, or read as on already; denied, timed out or failed each exactly under its condition; within 8000 ms, whatever was cancelled |
| EndpointCycle.Cycle | AudioFlowRecovery.hpp:226-292 | The endpoint is touched only when every check passed; it is disabled once and enabled until seen enabled or the budget of 6000 ms is spent, with one more enable otherwise; each result exactly under its condition, success iff disabled, seen disabled and seen enabled; waits within 2000 + 6000 ms |
| EndpointCycle.Reenable | AudioFlowRecovery.hpp:268-287 | The enabling loop stops at the first confirmed enable and not before, unless its 6000 ms are up |
| ConnectionCreation.CreatedConnectionHasOneFate | ConnectionCreation.hpp:22-89 | In every interleaving of worker and caller a created connection is taken once or closed once by the worker, never both; after Abandon no Take succeeds; finished comes only after that fate |
| ConnectionCreation.SettledRun | ConnectionCreation.hpp:28-69 | Every run of the hand-off keeps the ledger of takes and closes settled |
| ConnectionCreation.CheckDecides | ConnectionCreation.hpp:35-42 | In every interleaving a creation abandoned before the worker's first look never calls the driver and creates nothing; one that was not goes on to the call |
| ConnectionCreation.ReadyIsDelivered | ConnectionCreation.hpp:43-59 | A creation that is ready has the driver's answer, unless it was given up before the call |
| ConnectionCreation.ReleasedGoesOn | ConnectionCreation.hpp:53-69 | Once it is claimed or given up, its worker can always go on to the end |
| ConnectionCreation.State.TakeConnection | ConnectionCreation.hpp:80-89 | Take under the lock: succeeds exactly when not abandoned and delivered without error, then hands over what was delivered |
| ConnectionCreation.State.AbandonCreation | ConnectionCreation.hpp:22-27 | Abandon under the lock |
| ConnectionCreation.State.WorkerCheck | ConnectionCreation.hpp:35-42 | An abandoned creation ends before the driver is called, any other goes on to the call |
| ConnectionCreation.State.WorkerDeliver | ConnectionCreation.hpp:43-52 | The driver's answer is stored before the creation is ready |
| ConnectionCreation.State.WorkerReclaim | ConnectionCreation.hpp:53-61 | The worker keeps for closing exactly what nobody claimed |
| ConnectionCreation.State.WorkerFinish | ConnectionCreation.hpp:60-69 | Finished comes after the unclaimed connection was closed |
| AppRuntime.AppRuntimeState.CloseConnectionSession | ConnectionFlow.hpp:57-98 | Takes the protocol's close step: the session goes; its own worker or a new tracking flow is stopped and gets its link and the earlier task; the endpoint is cleaned exactly for an established session outside shutdown, recovery and skipped cleanups |
| AppRuntime.AppRuntimeState.PrepareForcedConnection | ConnectionFlow.hpp:100-110 | Refuses exactly when an unconnected session exists; otherwise the session is gone |
| AppRuntime.AppRuntimeState.DisconnectDevice | ConnectionFlow.hpp:112-134 | Keeps the joint invariants and leaves the device quiet: no later step but an accepted click brings it back; cleans the endpoint of an established session; takes the protocol's disconnect step, with both removal loops |
| AppRuntime.AppRuntimeState.ForgetDevice | ConnectionState.hpp:381-389 | Exactly the device's entries leave the remembered list, order kept |
| AppRuntime.AppRuntimeState.IsConnectionQueued | ConnectionFlow.hpp:650-655 | True iff some queued request names the device |
| AppRuntime.AppRuntimeState.HandleConnectionClosed | ConnectionFlow.hpp:153-211 | Keeps the joint invariants and wakes no quiet device; changes nothing unless it names the device's own connected session, then only takes that one without touching the endpoint and, outside a recovery, leaves the device quiet |
| AppRuntime.AppRuntimeState.QueueConnectionInternal | ConnectionFlow.hpp:657-749 | Takes the protocol's enqueue step, and answers every request as its gates say, with the whole new state written out |
| AppRuntime.AppRuntimeState.NewRequest | ConnectionFlow.hpp:696-736 | A new generation, a new attempt id, first try, due at once, to be prepared exactly when the device is unprepared, the request Forced, or Quick after a remote close |
| AppRuntime.AppRuntimeState.FindNextConnectionRequest | ConnectionFlow.hpp:763-769 | The first request with the least time |
| AppRuntime.AppRuntimeState.ProcessQueueHead | ConnectionFlow.hpp:776-810 | Leaves the loop once the queue is empty or the application stops, waits out a recovery or a queue with nothing due, and otherwise takes up exactly the first of the earliest due requests, under its device's current generation and with no session of the device; queues nothing; keeps the joint invariants |
| AppRuntime.AppRuntimeState.FinishTurn | ConnectionFlow.hpp:836-861 | The turn's end: recovery need noted exactly for a failure, and the queue grows by the retry exactly when the attempt may try again |
| AppRuntime.AppRuntimeState.FinishReturnedTurn | ConnectionFlow.hpp:810-861 | The normal end of a turn: a retry exactly when the attempt earned one; a retired attempt changes no session, queue or remembered device; keeps the joint invariants |
| AppRuntime.AppRuntimeState.FinishThrownTurn | ConnectionFlow.hpp:816-834 | The exception path: placeholder released; a retry exactly when the attempt earned one; a retired attempt changes no session, queue or remembered device; keeps the joint invariants |
| AppRuntime.AppRuntimeState.LeaveQueue | ConnectionFlow.hpp:869-882 | A worker runs afterwards exactly when requests are queued; keeps the joint invariants |
| AppRuntime.AppRuntimeState.MaybeQueuePendingReconnect | ConnectionFlow.hpp:900-911 | Queues one Automatic request exactly under the guards; no quiet device is woken, and the joint invariants are kept |
| AppRuntime.AppRuntimeState.QueueRememberedDevices | ConnectionFlow.hpp:885-898 | The loop over remembered devices, one protocol step each: afterwards every one of them waits or is in line, those present and unsuppressed are in line, those absent wait; quiet devices stay quiet, and the joint invariants are kept |
| AppRuntime.AppRuntimeState.RemoveDeviceRow | DeviceListUi.hpp:362-387 | An absent remembered device waits to be reconnected exactly when it is not suppressed, connected or in line and reconnecting is on; no quiet device is woken |
| AppRuntime.AppRuntimeState.DeviceAppeared | DeviceWatcher.hpp:138-149 | A row that appears: its deferred retry is reset and a pending reconnect queued exactly under its guards; no quiet device is woken |
| AppRuntime.AppRuntimeState.QuickConnectClicked | DeviceListUi.hpp:296-313 | The first button: an accepted click is served, on a connected or queued device it disconnects and leaves the device quiet, any other changes nothing; wakes no other quiet device |
| AppRuntime.AppRuntimeState.ForceConnectClicked | DeviceListUi.hpp:319-328 | The second button: an accepted click is served, any other changes nothing; wakes no quiet device but its own; keeps the joint invariants |
| AppRuntime.AppRuntimeState.ResetDeferral | DeviceListUi.hpp:245-250 | A device that is back need not wait for its deferred retry |
| AppRuntime.AppRuntimeState.BeginAttempt | ConnectionFlow.hpp:215-263 | First segment: cancelled if retired or connected, unavailable if an earlier creation of the device is unfinished, else the placeholder session stands and the attempt waits for the old flow or decides to prepare; keeps the joint invariants |
| AppRuntime.AppRuntimeState.ResumeAfterOldFlow | ConnectionFlow.hpp:262-268 | Second segment: past the wait no flow of the device is unfinished, the finished task is dropped and the attempt decides to prepare; a lost one is cancelled; keeps the joint invariants |
| AppRuntime.AppRuntimeState.StartPreparation | ConnectionFlow.hpp:269-290 | A Direct request goes on; any other drops the prepared mark, raises its counter and enters recovery, allowed to interrupt exactly for the first preparation of a Forced request |
| AppRuntime.AppRuntimeState.EnterRecovery | BluetoothRecovery.hpp:203-232 | The gate of EnsureBluetoothReady: protects live playback from a request that may not interrupt, fails at the shutdown, else takes the radio; never joins another recovery; no session changes |
| AppRuntime.AppRuntimeState.HasConnectedSessions | ConnectionState.hpp:343-359 | True iff some established session's link reads anything but Closed |
| AppRuntime.AppRuntimeState.RevokeAndSnapshot | BluetoothRecovery.hpp:245-256 | Exactly a request that may interrupt revokes the established sessions; every flow that may still cycle is behind a listed task; keeps the joint invariants |
| AppRuntime.AppRuntimeState.LeaveRecovery | BluetoothRecovery.hpp:275-292 | Afterwards no recovery is in progress; a success leaves the device prepared, no longer deferred and the request Direct, anything else leaves both sets alone and the request still to be prepared |
| AppRuntime.AppRuntimeState.AfterRecoveryAnswer | ConnectionFlow.hpp:300-326 | Cancelled for a lost attempt or a cancelled recovery, a recovery failure for any other, a new lookup without a snapshot or after the radio was off and on, else a creation, and that only when no open link of the device is in anybody's hands |
| AppRuntime.AppRuntimeState.AfterLookup | ConnectionFlow.hpp:374-377 | Cancel, or go on to the creation, under the same two guarantees |
| AppRuntime.AppRuntimeState.StartCreation | ConnectionFlow.hpp:379-396 | Starting phase, then a creation in the device's slot |
| AppRuntime.AppRuntimeState.ClaimConnection | ConnectionFlow.hpp:396-413 | Abandons the creation of a lost attempt or one with an error, else claims it: without a connection the device is unavailable, and a taken connection is the device's only open link |
| AppRuntime.AppRuntimeState.AfterStart | ConnectionFlow.hpp:446-464 | After StartAsync: on to OpenAsync; a lost attempt answers Cancelled and changes nothing else; keeps the joint invariants |
| AppRuntime.AppRuntimeState.AfterOpen | ConnectionFlow.hpp:468-552 | After OpenAsync: exactly one answer per status, and the wait for Opened exactly when it opened and does not read so yet; a lost attempt answers Cancelled and changes nothing else |
| AppRuntime.AppRuntimeState.AfterOpenedWait | ConnectionFlow.hpp:507-530 | After the wait for Opened: success exactly if the connection reads so, else closed unexpectedly; a lost attempt answers Cancelled and changes nothing else |
| AppRuntime.AppRuntimeState.SettleAttempt | ConnectionFlow.hpp:580-648 | Succeeds exactly if it had and the connection still reads Opened: then connected through its only open link, remembered, no longer pending, verified exactly if asked for; anything else fails with its own result, notes the need for recovery and leaves the device without a session |
| AppRuntime.AppRuntimeState.CommitSession | ConnectionFlow.hpp:602-632 | Connected, verified by a monitor when asked for, remembered, no longer pending |
| AppRuntime.AppRuntimeState.FinishClose | ConnectionFlow.hpp:33-55 | Close returned: the flow and the link it answered for are closed; a tracking flow is done; keeps the joint invariants |
| AppRuntime.AppRuntimeState.RunFlowWorker | AudioFlowRecovery.hpp:367-489 | The endpoint worker's phases: none of them begins or ends inside a radio transaction; keeps the joint invariants |
| AppRuntime.AppRuntimeState.ShutDown | Aulay.cpp:222-253 | Afterwards the queue and the sessions are empty and every generation was raised; keeps the joint invariants |
| AppRuntime.AppRuntimeState.BumpGenerations | Aulay.cpp:236-237 | Every known generation is raised by one, no key added or lost |
| RequestQueue.ServedAtRank | ConnectionFlow.hpp:788-797 | Repeatedly taking and erasing the next request serves each one exactly at its rank by time and queue order |
| RequestQueue.RanksAreStable | ConnectionFlow.hpp:763-769 | Ranks agree with time, and with queue order on ties: the order is the stable sort |
| RequestQueue.ServesEveryRequestOnce | ConnectionFlow.hpp:788-797 | The order of service is a permutation of the queue |
| RequestQueue.ConnectionQueuePosition | DeviceListUi.hpp:108-122 | The shown position of a queued device is its 1-based place in the order of service; 1 for any other device |
| RequestQueue.ClickOvertakesDeferredRetries | ConnectionFlow.hpp:690-711 | A click on a queued device is served before every deferred retry |
| RecoveryPolicy.Policy.Observe | AudioFlowPolicy.hpp:35-75 | The incremental decision is the verdict on the whole observation history |
| RecoveryPolicy.EachDecisionIsTheVerdict | AudioFlowPolicy.hpp:35-75 | One observation keeps the fields a summary of the history and decides as the verdict does |
| RecoveryPolicy.RecoversExactlyWhenDue | AudioFlowPolicy.hpp:28-82 | Over any sequence, step n answers Recover iff authorized, never disarmed, and for the first time a silent run ending there spans 500 ms |
| RecoveryPolicy.OverdueByMaximalRun | AudioFlowPolicy.hpp:63-73 | That is a statement about the maximal run of silent observations with steps of 0 to 250 ms |
| RecoveryPolicy.AtMostOneRecovery | AudioFlowPolicy.hpp:28-82 | At most one Recover, and none after frames, a pause or a cancellation |
| JournalRuns.JournalKeepsItsPromises | DebugAudioMonitor.hpp:88-210 | In every run of writes, marks and a finish, whatever the bundle files' operations answer: the history is within 120 s and 8 MiB, the longest such suffix of what was written, its byte count exact; the rotated files are a suffix of everything written; open bundles are numbered upwards, ordered, and hold exactly the lines since their first one; ended bundles are runs of consecutive lines within 16 MiB; none holds a line later than 30 s after its marker |
| JournalRuns.BundleHoldsItsHistory | DebugAudioMonitor.hpp:178-190 | A bundle's first line is the first of the history at its marker, and its body begins with exactly that history, open or ended, in every later state |
| Journal.WriteKeeps | DebugAudioMonitor.hpp:117-159 | Write keeps all of that |
| Journal.MarkKeeps | DebugAudioMonitor.hpp:160-191 | Mark keeps all of that, whether the bundle file could be created or not and the old one removed or not |
| Journal.FinishKeeps | DebugAudioMonitor.hpp:202-209 | Finish keeps all of that and leaves no bundle open |
| Journal.OnlyAPrefixEnds | DebugAudioMonitor.hpp:150-158 | A line ends only a prefix of the open bundles and goes to all the others |
| Journal.FeedSorts | DebugAudioMonitor.hpp:150-158 | A line goes to exactly the open bundles whose 30 s still run and that stay within 16 MiB, and ends the others as they are |
| JournalRuns.CreatedBundlesKeepTheirFiles | DebugAudioMonitor.hpp:160-190 | If every bundle file is created, the open bundles are the newest markers, all their files exist, and retention never deletes one of them |
| JournalRuns.RetentionDeletesOpenFileExactly | DebugAudioMonitor.hpp:164-177 | In every run, a mark deletes the file of an open bundle exactly when the removal works and, room made, the bundle 20 markers back is still open |
| JournalRuns.FailedCreationsBreakRetention | DebugAudioMonitor.hpp:160-191 | A run from a fresh journal in which it is: one bundle, then twenty markers whose files cannot be created within its window |
| Journal.TrimIsMaximal | DebugAudioMonitor.hpp:144-149 | Trimming leaves the longest suffix within the limits |
| Journal.JournalFile.Write | DebugAudioMonitor.hpp:117-159 | The three loops of Write take the modelled step; the line goes to the end of the log, and one that would take the current file over 32 MiB moves the files on, the oldest of the four going |
| Journal.JournalFile.Rotate | DebugAudioMonitor.hpp:120-133 | The renames shift the three predecessors and empty the current log |
| Journal.JournalFile.FeedBundles | DebugAudioMonitor.hpp:150-158 | The erasing loop gives the line to exactly the bundles whose 30 s still run and that stay within 16 MiB, and ends the others |
| Journal.JournalFile.Mark | DebugAudioMonitor.hpp:160-191 | Mark, over every answer of its file operations, takes the modelled step: room, retention, the copied history, the marker line, and before it a line about the old file exactly if that could not be removed |
| Journal.JournalFile.Finish | DebugAudioMonitor.hpp:202-209 | Shutdown ends every open bundle |
| MonitorQueue.NothingAcceptedIsLost | DebugAudioMonitor.hpp:611-703 | Once the thread is done, everything accepted was processed exactly when no exception came with an event in the batch or the queue and no push was accepted after one; then no snapshot counts as pending |
| MonitorQueue.ExceptionLosesAcceptedEvents | DebugAudioMonitor.hpp:639-703 | It can: a run of a push, the swap, an exception and the thread's exit ends with an accepted event unprocessed |
| MonitorQueue.EventsAreConserved | DebugAudioMonitor.hpp:630-690 | In every interleaving, exceptions included: events are processed in the order accepted, the snapshot counter is exact, and every refused push is reported, still to report or lost with an exception |
| MonitorQueue.RequestsAreNeverDisplaced | DebugAudioMonitor.hpp:40-67 | Only a stopped monitor refuses a marker or snapshot pushed outside a callback |
| MonitorQueue.EventQueue.Push | DebugAudioMonitor.hpp:40-67 | Push takes the modelled step: taken, counted as dropped or ignored exactly under its conditions |
| MonitorQueue.EventQueue.TakeAll | DebugAudioMonitor.hpp:642-642 | The swap takes every queued event |
| MonitorQueue.EventQueue.TakeDropped | DebugAudioMonitor.hpp:676-678 | The exchange reports every counted drop |
| LogQueue.LogIsConserved | BackgroundLog.hpp:24-97 | In every interleaving: byte count exact and within 8 MiB, at most 4096 entries, accepted = written ++ lost ++ in flight ++ pending in order, drops all accounted for |
| LogQueue.FinishedMeansWritten | BackgroundLog.hpp:52-97 | Finished without a write fault, everything accepted was written and every drop reported |
| LogQueue.WrittenExactly | BackgroundLog.hpp:24-97 | For every finished run: everything accepted was written exactly when no write fault had an entry in its batch or in the queue and no push was accepted after a fault |
| LogQueue.FinishedAccount | BackgroundLog.hpp:79-96 | Once finished, everything accepted was written exactly when the lost batch held no entry and none is left in the queue, and every drop was reported exactly when none was lost or left |
| LogQueue.FaultLosesAcceptedEntries | BackgroundLog.hpp:79-96 | It does: an entry accepted after a write fault is never written |
| LogQueue.FaultStrandsPendingEntries | BackgroundLog.hpp:75-96 | So is one accepted while a batch with only a drop report is being written, though nothing is accepted after the fault |
| LogQueue.PushIsAcceptedExactly | BackgroundLog.hpp:24-40 | In every reachable state a push is accepted exactly when the log still runs, fewer than 4096 entries wait and the waiting characters with the new ones take at most 8 MiB at two bytes each |
| LogQueue.Queue.Push | BackgroundLog.hpp:24-40 | Push takes the modelled step: accepted exactly while running, below 4096 entries and within 8 MiB; what does not fit is counted |
| LogQueue.Queue.Stop | BackgroundLog.hpp:41-46 | No push is accepted any more |
| LogQueue.Queue.TakeBatch | BackgroundLog.hpp:57-76 | The worker's locked section takes everything and reports the drops |
| SettingsStore.LoadFindsLastSaveExactly | SettingsUtil.hpp:99-226 | After any mix of saves, restarts and portable and fallback failures, whatever the clock does: a load finds the last save that landed exactly when the other place's file does not outrank it (newer, or as old and portable), and nothing exactly when none ever landed |
| SettingsStore.SaveIsFoundExactly | SettingsUtil.hpp:196-226 | The same, checkable before the save: it will be found exactly when the other place's file does not outrank the present time |
| SettingsStore.LoadReturnsLastSave | SettingsUtil.hpp:99-226 | In particular under a strictly increasing clock it always does |
| SettingsStore.SaveIsNewest | SettingsUtil.hpp:196-226 | A save under any failures leaves the last successful one the newest file |
| SettingsStore.LoadFindsNewest | SettingsUtil.hpp:99-141 | A load finds the newest file |
| SettingsStore.TieLosesFallbackSave | SettingsUtil.hpp:99-109 | With equal write times a save in the fallback place is not found |
| SettingsStore.WriteSettingsAtomically | SettingsUtil.hpp:143-181 | Succeeds exactly when the temporary file can be created, every WriteFile takes 1 byte up to its chunk until the end, the flush works and the move works; then the file holds all the bytes, otherwise it is untouched; the temporary file is gone either way |
| SettingsStore.SettingsStorage.SaveSettings | SettingsUtil.hpp:196-226 | The active place, or the portable one, is written if that works, and only if it does not the fallback, if there is one and it is another place; the other file stays |
| SettingsStore.SettingsStorage.LoadSettings | SettingsUtil.hpp:111-141 | The preferred existing file becomes the active one |
| SettingsSaver.SavesAreOrdered | SettingsSave.hpp:27-94 | In every run: never two writers; what reached the disk is an ordered subsequence of what was queued; the last write is the file where it landed, and a load finds it exactly when the other place's file does not outrank it |
| SettingsSaver.TickingWritesAreFound | SettingsSave.hpp:46-95 | If each write happens later than the newest file before it, a load finds the last write that landed |
| SettingsSaver.PendingIsAttended | SettingsSave.hpp:27-94 | In every run a waiting snapshot has a worker until the application stops |
| SettingsSaver.CompleteMeansOnDisk | SettingsSave.hpp:99-117 | In every run of the application, whose other callers do not queue once it is stopping, the drain is reported complete exactly when it finished in time and the snapshot it queued, the latest, is the one on disk |
| SettingsSaver.DrainReportsExactly | SettingsSave.hpp:99-117 | For any caller at any time: complete with the latest snapshot on disk exactly when finished in time without a failure and it is there; complete without it exactly when a worker has then taken, and not put on disk, a snapshot queued after the idle signal |
| SettingsSaver.LateSnapshotFoolsTheDrain | SettingsSave.hpp:99-117 | That second case is one of the functions alone: a caller that queues after the idle signal, which the application does not have, reaches it |
| SettingsSaver.SaverState.QueueSaveSettings | SettingsSave.hpp:27-44 | A newer snapshot replaces the pending one; a worker starts only if none runs |
| SettingsSaver.SaverState.AfterWrite | SettingsSave.hpp:50-74 | The landed path becomes active and the next snapshot, if any, is taken |
| SettingsSaver.SaverState.FlushPendingSettings | SettingsSave.hpp:99-109 | The drain queues the latest snapshot and then waits for the worker |
| SettingsSaver.SaverState.FinishWorker | SettingsSave.hpp:79-94 | The last hop: flags, the idle signal, a restart for a late snapshot |
| Catalogue.FoldsAgree | FnvHash.hpp:6-16 | The masked fold over unbounded numbers and the wrapping 32-bit fold agree on all data |
| Catalogue.XorIsBitwise | FnvHash.hpp:11-11 | Each bit of the exclusive or is set exactly when one of the two bits is |
| Catalogue.StepIsXorTimesPrime | FnvHash.hpp:11-12 | A step of the hash has exactly one outcome, the product with the exclusive or |
| Catalogue.StepTellsBytesApart | FnvHash.hpp:11-12 | And tells any two bytes apart: the prime is invertible modulo 2^32 |
| Catalogue.HashOfLetterA | FnvHash.hpp:3-16 | The published value for one letter comes out |
| Catalogue.Fnv1a32 | FnvHash.hpp:6-16 | The C++ loop is FNV-1a: byte after byte the hash goes to (hash xor byte) times 16777619 in 32 bits, from the initial value, with a bitwise exclusive or |
| Catalogue.Fnv1a32Masked | translate/po2ymo.py:8-12 | So is the Python loop, which computes the same value |
| Catalogue.WriteCatalogue | translate/po2ymo.py:26-37 | Writes the image, or fails exactly when the count or an offset does not fit 16 bits |
| Catalogue.CollectUnits | translate/po2ymo.py:14-24 | Collects the included messages by hash, each hash once |
| Catalogue.CollectedExactly | translate/po2ymo.py:14-24 | What is collected is exactly the last message of each hash among those translated, or fuzzy with a text when fuzzy ones are wanted |
| Catalogue.PutInPlace | translate/po2ymo.py:24-24 | A new hash goes to the end and a known one keeps its place |
| Catalogue.LoadTranslateData | I18n.hpp:17-56 | Loads exactly the usable entries, the first one of each hash, from arbitrary bytes |
| Catalogue.LoadedStringsAreSafe | I18n.hpp:39-52 | On arbitrary bytes every loaded string lies behind the table and ends inside the resource |
| Catalogue.CatalogueRoundTrip | I18n.hpp:17-56 | Loading the writer's output with any bytes appended gives exactly the written map |
| Catalogue.TranslationIsFound | translate/po2ymo.py:14-37 | Looking up a message that is the last with its hash finds its translation in the loaded catalogue, whatever was collected, as long as the catalogue fits its format |
| Catalogue.MessageIsTranslated | I18n.hpp:58-86 | The writer's key is the one the program asks for, with a context and without: such a message is shown translated |

## Left out

- Identity of shared objects: flows, creations and connections are ids into tables instead of shared pointers, so aliasing shows as equal ids; generations and attempt ids do not wrap at 64 bits.
- Coroutine mechanics: a coroutine is a program counter; foreground hops and WaitFinished do not fail; a bounded wait completes, times out or is cancelled; an attempt's cancellation is requested exactly when its session is closed.
- QueueRememberedDevices in the protocol: one event per remembered device, so other steps may come in between; AppRuntime has the uninterrupted loop.
- Watcher lifecycle and reconciliation: they appear as nondeterministic Appeared and Left events.
- Windows calls (endpoint resolution, capture, jack, PnP, radio): only their outcomes, as parameters.
- The device lookup loop of ConnectDeviceAsync: one step with a nondeterministic outcome; a device snapshot is only present or absent.
- AudioFlow::Start failing to launch its thread: covered by a worker that ends at once; the cleanup flag such a flow keeps has no effect then.
- `markRecoveryNeeded` of CloseConnectionSession and `forceRecovery` of EnsureBluetoothReady: constant at every call site.
- RunFlowWorker and the protocol see an endpoint cycle as one interval; what happens inside it is EndpointCycle.
- Promptness and liveness: waiting for activityChanged, the drain of a snapshot that arrives during the saver's last hop, progress of the queue.
- The worker's writing of a link's Closed state and the setting of `finished` are one step in the protocol; ConnectionCreation keeps them apart.
- FinishShutdownWhenReady and the destruction of the UI: not part of this model.
- Session diagnostics, error texts, rows, tooltips, tray icon, themes and the Translate memo: no effect on the modelled state.
- JSON, UTF conversion, timestamps and log text: contents are opaque and lines have a size only.
- Journal files: failing log streams and renames are not modelled, and the main log starts empty; of a marker's bundle file, creation and removal may fail, writing to it may not. Removing a file that is still held open is one of the removals that may fail.
- MonitorQueue and LogQueue: an allocation that fails inside a push is not modelled; a push that fails so would count as refused.
- Settings metadata faults: a file's write time is readable exactly when the file exists, and a file that exists is valid.
- WriteCatalogue: a partly written file after an OverflowError is not modelled.
- Hash collisions: messages whose keys collide are one dictionary entry, as in the source.
- EndpointCycle.Cycle: a call to the policy interface takes no time; only the waits count.
