/** The connection protocol of ConnectionFlow.hpp, BluetoothRecovery.hpp and
    AudioFlowRecovery.hpp as a transition system. */
module Protocol {
  import opened Wrappers
  import opened Records
  import ConnectionCreation
  import RadioTransaction

  // Everything between two awaits on the UI thread is one atomic step; creation workers,
  // closers and endpoint workers take their own steps in between. The in-flight attempt's
  // program counter is explicit.

  // ---------------------------------------------------------------- state

  /** Where an endpoint worker is. NoWorker: a flow that only tracks a close. */
  datatype FlowWorker = NoWorker | Monitoring | RepairCycle | AwaitingClose | CleanupCycle | WorkerDone

  /** AudioFlow::State, with the closer CloseSessionInBackground started for it: the
      predecessor it waits for and the retired link it closes. */
  datatype Flow = Flow(
    device: DeviceId,
    authorized: bool,
    worker: FlowWorker,
    stop: bool,
    closed: bool,
    cleanup: bool,
    done: bool,
    predecessor: Option<FlowId>,
    link: Option<LinkId>)
  {
    /** When AudioFlow::WaitFinished returns. */
    predicate Finished() { done && (stop ==> closed) }

    /** A worker that may still run an endpoint cycle. */
    predicate MayCycle() { !worker.NoWorker? && !worker.WorkerDone? }

    predicate Cycling() { worker.RepairCycle? || worker.CleanupCycle? }
  }

  /** An AudioPlaybackConnection object. */
  datatype Link = Link(device: DeviceId, closed: bool)

  /** The await an attempt is suspended in. */
  datatype Pc =
    | Popped
    | WaitingOldFlow(flow: FlowId)
    | EnteringRecovery(allow: bool)
    | JoiningRecovery
    | FindingRadio(allow: bool)
    | AwaitingFlows(allow: bool, tasks: seq<FlowId>)
    | InTransaction(allow: bool)
    | FinishingRecovery(outcome: Recovery)
    | AfterRecovery(outcome: Recovery)
    | LookingUp
    | Creating(creation: CreationId)
    | StartingLink(link: LinkId)
    | OpeningLink(link: LinkId)
    | WaitingOpened(link: LinkId)
    | Settling(result: AttemptResult, current: Option<LinkId>)
    | Returned(result: AttemptResult)
    | Threw(timedOut: bool)
  {
    /** EnsureBluetoothReady has set inProgress and not yet cleared it. */
    predicate Recovering() {
      FindingRadio? || AwaitingFlows? || InTransaction? || FinishingRecovery?
    }

    /** The attempt has emplaced its session and has not returned. */
    predicate Underway() { !Popped? && !Returned? }
  }

  /** The queue worker coroutine. */
  datatype Worker = Idle | Head | Exiting | Running(request: Request, pc: Pc)

  datatype Bluetooth = Bluetooth(needed: bool, inProgress: bool, device: DeviceId)

  datatype World = World(
    stopping: bool,
    reconnectEnabled: bool,
    sessions: map<DeviceId, Session>,
    queue: seq<Request>,
    workerRunning: bool,
    worker: Worker,
    generations: map<DeviceId, nat>,
    lastAttempt: nat,
    desired: seq<DeviceId>,
    pending: set<DeviceId>,
    suppressed: set<DeviceId>,
    deferred: set<DeviceId>,
    prepared: set<DeviceId>,
    bluetooth: Bluetooth,
    flows: seq<Flow>,
    flowTasks: map<DeviceId, FlowId>,
    creations: seq<ConnectionCreation.Creation>,
    slots: map<DeviceId, CreationId>,
    links: seq<Link>,
    live: set<LinkId>)

  // ---------------------------------------------------------------- small readers

  function Generation(generations: map<DeviceId, nat>, d: DeviceId): nat {
    if d in generations then generations[d] else 0
  }

  /** Index of the device's queued request, or the queue's length. */
  function QueueIndex(queue: seq<Request>, d: DeviceId): (i: nat)
    ensures i <= |queue|
    ensures i < |queue| ==> queue[i].device == d
    ensures forall j :: 0 <= j < i ==> queue[j].device != d
    decreases |queue|
  {
    if queue == [] then 0
    else if queue[0].device == d then 0
    else
      var rest := QueueIndex(queue[1..], d);
      assert forall j :: 0 < j <= rest ==> queue[j] == queue[1..][j - 1] || j == |queue|;
      1 + rest
  }

  predicate Queued(queue: seq<Request>, d: DeviceId) {
    exists i :: 0 <= i < |queue| && queue[i].device == d
  }

  predicate IsCurrent(w: World, r: Request, link: Option<LinkId>) {
    && r.device in w.sessions
    && w.sessions[r.device].generation == r.generation
    && (link.Some? ==> w.sessions[r.device].link == link)
  }

  /** HasConnectedSessions: an established session whose link reads anything but Closed. */
  predicate HasLivePlayback(sessions: map<DeviceId, Session>, live: set<LinkId>) {
    exists d :: d in sessions && sessions[d].phase.Connected? && sessions[d].link.Some?
      && sessions[d].link.value in live
  }

  function At(w: World, r: Request, pc: Pc): World {
    w.(worker := Running(r, pc))
  }

  // ---------------------------------------------------------------- closing sessions

  predicate StillRuns(flows: seq<Flow>, f: Option<FlowId>) {
    f.Some? && f.value < |flows| && !flows[f.value].done
  }

  /** The flow a retired session is handed to: its own worker if that still runs, else a
      new flow that starts a cleanup worker only when the endpoint must be cycled. */
  function RetiredFlow(w: World, d: DeviceId, cleanAudio: bool): (FlowId, Flow)
    requires d in w.sessions
  {
    var s := w.sessions[d];
    if StillRuns(w.flows, s.flow) then
      var f := s.flow.value;
      var predecessor := if d in w.flowTasks && w.flowTasks[d] != f then Some(w.flowTasks[d]) else None;
      (f, w.flows[f].(stop := true, cleanup := cleanAudio, predecessor := predecessor, link := s.link))
    else
      (|w.flows|,
       Flow(d, false, if cleanAudio then AwaitingClose else NoWorker, true, false, cleanAudio, false,
            if d in w.flowTasks then Some(w.flowTasks[d]) else None, s.link))
  }

  predicate CleansAudio(w: World, d: DeviceId, skipAudioCleanup: bool)
    requires d in w.sessions
  {
    w.sessions[d].phase.Connected? && !w.stopping && !skipAudioCleanup && !w.bluetooth.inProgress
  }

  function Put<T>(s: seq<T>, i: nat, x: T): (r: seq<T>)
    requires i <= |s|
    ensures |r| == (if i < |s| then |s| else |s| + 1) && r[i] == x
    ensures forall j :: 0 <= j < |s| && j != i ==> r[j] == s[j]
  {
    if i < |s| then s[i := x] else s + [x]
  }

  /** Every caller passes markRecoveryNeeded == false, so that parameter is not modelled. */
  function CloseSession(w: World, d: DeviceId, generation: Option<nat>, skipAudioCleanup: bool): World {
    if d !in w.sessions || (generation.Some? && w.sessions[d].generation != generation.value) then w
    else
      var (f, flow) := RetiredFlow(w, d, CleansAudio(w, d, skipAudioCleanup));
      w.(sessions := w.sessions - {d}, flows := Put(w.flows, f, flow), flowTasks := w.flowTasks[d := f])
  }

  /** The loops over a list of session ids in BeginShutdown and EnsureBluetoothReady. */
  function CloseAll(w: World, ids: seq<DeviceId>): (w': World)
    decreases |ids|
  {
    if ids == [] then w
    else
      CloseAll(CloseSession(w, ids[0], None, false), ids[1..])
  }

  // ---------------------------------------------------------------- queueing requests

  function FreshRequest(w: World, d: DeviceId, hasSnapshot: bool, mode: Mode): Request {
    var afterClose := d in w.deferred;
    var prepare := d !in w.prepared;
    Request(d, hasSnapshot, Generation(w.generations, d) + 1, w.lastAttempt + 1, 0, mode,
            SelectInitialRecoveryStrategy(mode, afterClose, prepare), afterClose, prepare, 0, NotRequired, 0)
  }

  function Append(w: World, r: Request): World {
    w.(queue := w.queue + [r],
       workerRunning := true,
       worker := if w.workerRunning then w.worker else Head)
  }

  /** The newest request's generation and id are taken. */
  function Numbered(w: World, r: Request): World {
    w.(generations := w.generations[r.device := r.generation], lastAttempt := r.attemptId)
  }

  /** A click on a queued device takes the request over under a new generation and id. */
  function Promote(w: World, i: nat, hasSnapshot: bool, mode: Mode): World
    requires i < |w.queue|
  {
    var newest := FreshRequest(w, w.queue[i].device, hasSnapshot || w.queue[i].hasSnapshot, mode);
    Numbered(w, newest).(queue := w.queue[i := newest])
  }

  /** An explicit request lifts the suppression; any request consumes the pending reconnect. */
  function Unsuppressed(w: World, d: DeviceId, mode: Mode): World {
    w.(suppressed := if mode.Automatic? then w.suppressed else w.suppressed - {d}, pending := w.pending - {d})
  }

  /** The part of QueueConnectionInternal after its gates. */
  function Place(w: World, d: DeviceId, hasSnapshot: bool, mode: Mode, retry: Option<Request>): World {
    PlacedAt(Unsuppressed(w, d, mode), QueueIndex(w.queue, d), d, hasSnapshot, mode, retry)
  }

  /** Its end, once the scan of the queue has found index i. */
  function PlacedAt(w: World, i: nat, d: DeviceId, hasSnapshot: bool, mode: Mode, retry: Option<Request>): World {
    if i < |w.queue| then
      if !mode.Automatic? && retry.None? then Promote(w, i, hasSnapshot, mode)
      else w.(queue := w.queue[i := w.queue[i].(hasSnapshot := hasSnapshot || w.queue[i].hasSnapshot)])
    else if retry.Some? then Append(w, retry.value)
    else
      var newest := FreshRequest(w, d, hasSnapshot, mode);
      Append(Numbered(w, newest), newest)
  }

  /** The gates of QueueConnectionInternal up to PrepareForcedConnection's answer. */
  predicate Admitted(w: World, d: DeviceId, mode: Mode) {
    && d != NO_DEVICE
    && !w.stopping
    && !(mode.Automatic? && d in w.suppressed)
    && !(mode.Automatic? && w.bluetooth.inProgress)
    && (d in w.sessions ==> mode.Forced? && w.sessions[d].phase.Connected?)
  }

  function Enqueue(w: World, d: DeviceId, hasSnapshot: bool, mode: Mode, retry: Option<Request>): World {
    if !Admitted(w, d, mode) then w
    else Place(if mode.Forced? then CloseSession(w, d, None, true) else w, d, hasSnapshot, mode, retry)
  }

  // ---------------------------------------------------------------- what the user and the system do

  function Without(ids: seq<DeviceId>, d: DeviceId): (r: seq<DeviceId>)
    ensures forall x :: x in r <==> x in ids && x != d
  {
    if ids == [] then []
    else if ids[0] == d then Without(ids[1..], d)
    else [ids[0]] + Without(ids[1..], d)
  }

  function WithoutDevice(queue: seq<Request>, d: DeviceId): (r: seq<Request>)
    ensures forall x :: x in r <==> x in queue && x.device != d
  {
    if queue == [] then []
    else if queue[0].device == d then WithoutDevice(queue[1..], d)
    else [queue[0]] + WithoutDevice(queue[1..], d)
  }

  function Forgotten(w: World, d: DeviceId): World {
    w.(pending := w.pending - {d}, desired := Without(w.desired, d))
  }

  /** DisconnectDevice before it closes the session. */
  function Withdrawn(w: World, d: DeviceId): World {
    Forgotten(w.(generations := w.generations[d := Generation(w.generations, d) + 1],
                 queue := WithoutDevice(w.queue, d)), d)
  }

  function Disconnect(w: World, d: DeviceId): World {
    if w.stopping then w else CloseSession(Withdrawn(w, d), d, None, false)
  }

  function ClickQuick(w: World, d: DeviceId, discovered: bool): World {
    if w.stopping then w
    else if d in w.sessions || Queued(w.queue, d) then Disconnect(w, d)
    else if discovered then Enqueue(w, d, true, Quick, None)
    else w
  }

  /** The second button: "No sound" on a connected row, else Force Connect. */
  function ClickForce(w: World, d: DeviceId): World {
    if w.stopping || (d in w.sessions && !w.sessions[d].phase.Connected?) then w
    else Enqueue(w, d, false, Forced, None)
  }

  function ResetNotBefore(queue: seq<Request>, d: DeviceId): (r: seq<Request>)
    ensures |r| == |queue|
    ensures forall i :: 0 <= i < |r| ==>
      r[i] == queue[i].(notBefore := if queue[i].device == d then 0 else queue[i].notBefore)
  {
    if queue == [] then []
    else
      [queue[0].(notBefore := if queue[0].device == d then 0 else queue[0].notBefore)] + ResetNotBefore(queue[1..], d)
  }

  function MaybeReconnect(w: World, d: DeviceId): World {
    if !w.reconnectEnabled || w.stopping || d !in w.pending || d in w.sessions || Queued(w.queue, d) then w
    else Enqueue(w, d, true, Automatic, None)
  }

  /** UpsertDeviceRow then MaybeQueuePendingReconnect, from the watcher or reconciliation. */
  function DeviceAppears(w: World, d: DeviceId, newlyPresent: bool): World {
    if w.stopping || w.bluetooth.inProgress then w
    else MaybeReconnect(if newlyPresent then w.(queue := ResetNotBefore(w.queue, d)) else w, d)
  }

  /** RemoveDeviceRow for a row that is present. */
  function DeviceLeaves(w: World, d: DeviceId): World {
    if w.stopping || w.bluetooth.inProgress || d in w.sessions || Queued(w.queue, d) then w
    else if w.reconnectEnabled && d in w.desired && d !in w.suppressed then w.(pending := w.pending + {d})
    else w
  }

  /** One turn of the loop in QueueRememberedDevices. */
  function RememberOne(w: World, d: DeviceId, discovered: bool): World {
    if w.stopping || !w.reconnectEnabled || d == NO_DEVICE then w
    else
      var w := w.(pending := w.pending + {d});
      if discovered then MaybeReconnect(w, d) else w
  }

  /** The dispatched part of HandleConnectionClosed. */
  function LinkClosed(w: World, d: DeviceId, generation: nat, link: LinkId, readsClosed: bool): World {
    if w.stopping || d !in w.sessions || w.sessions[d].generation != generation
       || w.sessions[d].link != Some(link)
    then w
    else if !readsClosed || !w.sessions[d].phase.Connected? then w
    else CloseSession(Muted(w, d), d, Some(generation), true)
  }

  /** Outside a recovery a remote close suppresses reconnecting and defers the next recovery. */
  function Muted(w: World, d: DeviceId): World {
    var recovering := w.bluetooth.inProgress;
    w.(suppressed := if recovering then w.suppressed else w.suppressed + {d},
       deferred := if recovering then w.deferred else w.deferred + {d},
       pending := w.pending - {d})
  }

  function BumpAll(generations: map<DeviceId, nat>): (r: map<DeviceId, nat>)
    ensures r.Keys == generations.Keys && forall d :: d in r ==> r[d] == generations[d] + 1
  {
    map d | d in generations :: generations[d] + 1
  }

  function BeginShutdown(w: World, ids: seq<DeviceId>): World {
    if w.stopping then w
    else CloseAll(Halted(w), ids)
  }

  function Halted(w: World): World {
    w.(stopping := true, queue := [], generations := BumpAll(w.generations))
  }

  // ---------------------------------------------------------------- the queue worker

  /** std::min_element over notBefore: the first of the earliest. */
  function NextIndex(queue: seq<Request>): (i: nat)
    requires queue != []
    ensures i < |queue|
    ensures forall j :: 0 <= j < |queue| ==> queue[i].notBefore <= queue[j].notBefore
    ensures forall j :: 0 <= j < i ==> queue[i].notBefore < queue[j].notBefore
  {
    if |queue| == 1 then 0
    else
      var k := NextIndex(queue[..|queue| - 1]);
      if queue[|queue| - 1].notBefore < queue[k].notBefore then |queue| - 1 else k
  }

  function RemoveAt<T>(s: seq<T>, i: nat): (r: seq<T>)
    requires i < |s|
    ensures |r| == |s| - 1
    ensures forall j :: 0 <= j < |r| ==> r[j] == s[if j < i then j else j + 1]
  {
    s[..i] + s[i + 1..]
  }

  function WorkerHead(w: World, now: nat): World {
    if w.queue == [] || w.stopping then w.(worker := Exiting)
    else if w.bluetooth.inProgress then w
    else
      var i := NextIndex(w.queue);
      var r := w.queue[i];
      if r.notBefore > now then w
      else
        var w := w.(queue := RemoveAt(w.queue, i));
        if Generation(w.generations, r.device) != r.generation || r.device in w.sessions then w
        else w.(worker := Running(r, Popped))
  }

  function WorkerExit(w: World): World {
    if w.queue != [] && !w.stopping then w.(workerRunning := true, worker := Head)
    else w.(workerRunning := false, worker := Idle)
  }

  /** Back in the loop after an attempt: note the need, retry or go on. */
  function FinishAttempt(w: World, r: Request, result: AttemptResult, now: nat): World {
    var failed := !result.Success? && !result.Cancelled?;
    var w := w.(worker := Head, bluetooth := if failed then w.bluetooth.(needed := true) else w.bluetooth);
    if CanRetryConnection(r, result) && !w.stopping && Generation(w.generations, r.device) == r.generation
       && !Queued(w.queue, r.device) && r.device !in w.sessions
    then Enqueue(w, r.device, false, r.mode, Some(RetryRequest(r, now)))
    else w
  }

  function AttemptReturned(w: World, now: nat): World
    requires w.worker.Running? && w.worker.pc.Returned?
  {
    FinishAttempt(w, w.worker.request, w.worker.pc.result, now)
  }

  /** How the loop reports an exception that left ConnectDeviceAsync. */
  function ThrownResult(w: World, r: Request, timedOut: bool): AttemptResult {
    if w.stopping || Generation(w.generations, r.device) != r.generation then Cancelled
    else if timedOut then DeadlineExceeded
    else AttemptFailed
  }

  /** Such an attempt's placeholder session is released first. */
  function AttemptThrew(w: World, now: nat): World
    requires w.worker.Running? && w.worker.pc.Threw?
  {
    var r := w.worker.request;
    var result := ThrownResult(w, r, w.worker.pc.timedOut);
    FinishAttempt(CloseSession(w, r.device, Some(r.generation), false), r, result, now)
  }

  // ---------------------------------------------------------------- one attempt

  function Return(w: World, r: Request, result: AttemptResult): World {
    At(w, r, Returned(result))
  }

  function CloseAndReturn(w: World, r: Request, result: AttemptResult): World {
    Return(CloseSession(w, r.device, Some(r.generation), false), r, result)
  }

  /** How a lost session is reported after the link was created. */
  function Lost(w: World, r: Request): AttemptResult {
    if w.stopping || Generation(w.generations, r.device) != r.generation then Cancelled else ClosedUnexpectedly
  }

  function BeginPreparation(w: World, r: Request): World {
    if r.strategy.Direct? then At(w, r, AfterRecovery(NotRequired))
    else At(w.(prepared := w.prepared - {r.device}),
            r.(preparationAttempts := r.preparationAttempts + 1),
            EnteringRecovery(r.mode.Forced? && r.preparationAttempts == 0))
  }

  predicate SlotBusy(w: World, d: DeviceId) {
    d in w.slots && w.slots[d] < |w.creations| && !w.creations[w.slots[d]].Finished()
  }

  function AttemptBegins(w: World): World
    requires w.worker.Running? && w.worker.pc.Popped?
  {
    var r := w.worker.request;
    var d := r.device;
    if d == NO_DEVICE || w.stopping || Generation(w.generations, d) != r.generation || d in w.sessions
    then Return(w, r, Cancelled)
    else if SlotBusy(w, d) then Return(w, r, DeviceUnavailable)
    else if d in w.flowTasks then At(Emplaced(w, r), r, WaitingOldFlow(w.flowTasks[d]))
    else BeginPreparation(Emplaced(w, r), r)
  }

  /** The placeholder session an attempt emplaces; a finished creation leaves its slot. */
  function Emplaced(w: World, r: Request): World {
    var phase := if r.strategy.Direct? then Phase.Starting else RecoveringBluetooth;
    w.(slots := w.slots - {r.device},
       sessions := w.sessions[r.device := Session(r.generation, r.attemptId, phase, None, None)])
  }

  function OldFlowFinished(w: World): World
    requires w.worker.Running? && w.worker.pc.WaitingOldFlow?
  {
    var r := w.worker.request;
    if !IsCurrent(w, r, None) || w.stopping then Return(w, r, Cancelled)
    else BeginPreparation(w.(flowTasks := w.flowTasks - {r.device}), r)
  }

  function PreparationEnds(w: World, r: Request, outcome: Recovery): World {
    At(w, r.(preparationResult := outcome, strategy := if outcome.Ready() then Direct else r.strategy),
       AfterRecovery(outcome))
  }

  /** EnsureBluetoothReady up to its first await inside the try block. */
  function RecoveryGate(w: World): World
    requires w.worker.Running? && w.worker.pc.EnteringRecovery?
  {
    var r := w.worker.request;
    var allow := w.worker.pc.allow;
    var w := w.(bluetooth := w.bluetooth.(needed := true));
    if HasLivePlayback(w.sessions, w.live) && !allow then PreparationEnds(w, r, NotRequired)
    else if w.bluetooth.inProgress then At(w, r, JoiningRecovery)
    else if w.stopping then PreparationEnds(w, r, UnexpectedFailure)
    else At(w.(bluetooth := Bluetooth(true, true, r.device)), r, FindingRadio(allow))
  }

  function RadioFound(w: World, ids: seq<DeviceId>, tasks: seq<FlowId>): World
    requires w.worker.Running? && w.worker.pc.FindingRadio?
  {
    var allow := w.worker.pc.allow;
    var w' := if allow then CloseAll(w, ids) else w;
    At(w', w.worker.request, AwaitingFlows(allow, tasks))
  }

  function RecoveryFinished(w: World): World
    requires w.worker.Running? && w.worker.pc.FinishingRecovery?
  {
    var r := w.worker.request;
    var outcome := w.worker.pc.outcome;
    var ok := outcome.Succeeded?;
    var w := if ok then Prepared(w, r.device) else w;
    PreparationEnds(w.(bluetooth := w.bluetooth.(needed := !ok, inProgress := false)), r, outcome)
  }

  function Prepared(w: World, d: DeviceId): World {
    w.(deferred := w.deferred - {d}, prepared := w.prepared + {d})
  }

  function BeginCreation(w: World, r: Request, fault: Option<AttemptResult>): World
    requires r.device in w.sessions
  {
    var w := w.(sessions := w.sessions[r.device := w.sessions[r.device].(phase := Phase.Starting)]);
    if fault.Some? then At(w, r, Settling(fault.value, None)) else At(NewSlot(w, r.device), r, Creating(|w.creations|))
  }

  /** A worker of its own creates the device's connection. */
  function NewSlot(w: World, d: DeviceId): World {
    w.(creations := w.creations + [ConnectionCreation.New(d)], slots := w.slots[d := |w.creations|])
  }

  function AfterPreparation(w: World, fault: Option<AttemptResult>): World
    requires w.worker.Running? && w.worker.pc.AfterRecovery?
  {
    var r := w.worker.request;
    var outcome := w.worker.pc.outcome;
    if !IsCurrent(w, r, None) || w.stopping then CloseAndReturn(w, r, Cancelled)
    else if !outcome.Ready() then
      CloseAndReturn(w, r, if outcome.RecoveryCancelled? then Cancelled else BluetoothRecoveryFailed)
    else if !r.hasSnapshot || outcome.Succeeded? then At(w, r, LookingUp)
    else BeginCreation(w, r, fault)
  }

  function LookupEnds(w: World, fault: Option<AttemptResult>): World
    requires w.worker.Running? && w.worker.pc.LookingUp?
  {
    var r := w.worker.request;
    if !IsCurrent(w, r, None) || w.stopping then CloseAndReturn(w, r, Cancelled)
    else BeginCreation(w, r, fault)
  }

  function UpdateCreation(w: World, c: CreationId, x: ConnectionCreation.Creation): World
    requires c < |w.creations|
  {
    w.(creations := w.creations[c := x])
  }

  function CreationReady(w: World, fault: AttemptResult): World
    requires w.worker.Running? && w.worker.pc.Creating? && w.worker.pc.creation < |w.creations|
  {
    var r := w.worker.request;
    var c := w.worker.pc.creation;
    var creation := w.creations[c];
    if !IsCurrent(w, r, None) || w.stopping then
      Return(UpdateCreation(w, c, ConnectionCreation.Abandon(creation)), r, Cancelled)
    else
      Claim(w, r, c, ConnectionCreation.Take(creation).0, ConnectionCreation.Take(creation).1, fault)
  }

  /** Take's answer: the creation afterwards, and a link, nothing or an exception. */
  function Claim(w: World, r: Request, c: CreationId, after: ConnectionCreation.Creation,
                 result: ConnectionCreation.TakeResult, fault: AttemptResult): World
    requires c < |w.creations| && r.device in w.sessions
  {
    if !result.Taken? then At(UpdateCreation(w, c, ConnectionCreation.Abandon(after)), r, Settling(fault, None))
    else if result.connection.None? then At(UpdateCreation(w, c, after), r, Settling(DeviceUnavailable, None))
    else HandOver(UpdateCreation(w, c, after), r, result.connection.value)
  }

  /** The session owns the link from here on. */
  function HandOver(w: World, r: Request, l: LinkId): World
    requires r.device in w.sessions
  {
    At(w.(sessions := w.sessions[r.device := w.sessions[r.device].(link := Some(l))]), r, StartingLink(l))
  }

  /** An await or check inside the inner try block throws; the catch records the result. */
  function AttemptFaults(w: World, fault: AttemptResult): World
    requires w.worker.Running?
    requires match w.worker.pc
             case Creating(c) => c < |w.creations|
             case StartingLink(_) | OpeningLink(_) | WaitingOpened(_) => true
             case _ => false
  {
    var r := w.worker.request;
    match w.worker.pc
    case Creating(c) => At(UpdateCreation(w, c, ConnectionCreation.Abandon(w.creations[c])), r, Settling(fault, None))
    case StartingLink(l) => At(w, r, Settling(fault, Some(l)))
    case OpeningLink(l) => At(w, r, Settling(fault, Some(l)))
    case WaitingOpened(l) => At(w, r, Settling(fault, Some(l)))
  }

  function LinkStarted(w: World): World
    requires w.worker.Running? && w.worker.pc.StartingLink?
  {
    var r := w.worker.request;
    var l := w.worker.pc.link;
    if !IsCurrent(w, r, Some(l)) || w.stopping then CloseAndReturn(w, r, Lost(w, r))
    else At(w.(sessions := w.sessions[r.device := w.sessions[r.device].(phase := Phase.Opening)]), r, OpeningLink(l))
  }

  datatype OpenStatus = OpenSucceeded | RequestTimedOut | RequestDenied | RequestFailed

  function OpenReturned(w: World, status: OpenStatus, isOpen: bool): World
    requires w.worker.Running? && w.worker.pc.OpeningLink?
  {
    var r := w.worker.request;
    var l := w.worker.pc.link;
    if !IsCurrent(w, r, Some(l)) || w.stopping then CloseAndReturn(w, r, Lost(w, r))
    else match status
      case OpenSucceeded =>
        At(w.(sessions := w.sessions[r.device := w.sessions[r.device].(phase := Phase.WaitingForOpened)]), r,
           if isOpen then Settling(Success, Some(l)) else WaitingOpened(l))
      case RequestTimedOut => At(w, r, Settling(OpenTimedOut, Some(l)))
      case RequestDenied => At(w, r, Settling(DeniedBySystem, Some(l)))
      case RequestFailed => At(w, r, Settling(OpenFailed, Some(l)))
  }

  function OpenedWaited(w: World, isOpen: bool): World
    requires w.worker.Running? && w.worker.pc.WaitingOpened?
  {
    var r := w.worker.request;
    var l := w.worker.pc.link;
    if !IsCurrent(w, r, Some(l)) || w.stopping then CloseAndReturn(w, r, Cancelled)
    else At(w, r, Settling(if isOpen then Success else ClosedUnexpectedly, Some(l)))
  }

  function NewMonitor(d: DeviceId): Flow {
    Flow(d, true, Monitoring, false, false, false, false, None, None)
  }

  /** The committing branch of the last segment: the session, with the worker that verifies
      its audio, and then the rest. */
  function Commit(w: World, r: Request, flowStarts: bool): World
    requires r.device in w.sessions
  {
    Committed(Established(w, r.device, flowStarts && (!r.mode.Automatic? || r.prepareBeforeConnect)), r)
  }

  function Established(w: World, d: DeviceId, verify: bool): World
    requires d in w.sessions
  {
    var s := w.sessions[d].(phase := Connected);
    if !verify then w.(sessions := w.sessions[d := s])
    else w.(sessions := w.sessions[d := s.(flow := Some(|w.flows|))],
            flows := w.flows + [NewMonitor(d)],
            flowTasks := w.flowTasks[d := |w.flows|])
  }

  function Committed(w: World, r: Request): World {
    Return(Recalled(w, r.device).(bluetooth := w.bluetooth.(needed := false)), r, Success)
  }

  /** The device is remembered, and no longer waits for an automatic reconnect. */
  function Recalled(w: World, d: DeviceId): World {
    w.(desired := if d in w.desired then w.desired else w.desired + [d], pending := w.pending - {d})
  }

  function Settle(w: World, stillOpened: bool, flowStarts: bool): World
    requires w.worker.Running? && w.worker.pc.Settling?
  {
    var r := w.worker.request;
    var current := w.worker.pc.current;
    var result := if w.worker.pc.result.Success? && !stillOpened then ClosedUnexpectedly else w.worker.pc.result;
    if !IsCurrent(w, r, current) || w.stopping then CloseAndReturn(w, r, Lost(w, r))
    else if result.Success? then Commit(w, r, flowStarts)
    else Failed(w, r, result)
  }

  function Failed(w: World, r: Request, result: AttemptResult): World {
    var w' := CloseAndReturn(w, r, result);
    w'.(bluetooth := w'.bluetooth.(needed := true))
  }

  // ---------------------------------------------------------------- background workers

  /** CloseSessionInBackground after its predecessor wait: Close returns, completion is signalled. */
  function CloserReturns(w: World, f: FlowId): World
    requires f < |w.flows|
  {
    var flow := w.flows[f];
    w.(flows := w.flows[f := flow.(closed := true, done := flow.done || flow.worker.NoWorker?)],
       links := if flow.link.Some? && flow.link.value < |w.links|
                then w.links[flow.link.value := w.links[flow.link.value].(closed := true)] else w.links)
  }

  datatype FlowAction = BeginRepair | EndRepair | EndMonitoring | BeginCleanup | EndWorker

  predicate FlowMay(flow: Flow, a: FlowAction) {
    match a
    case BeginRepair => flow.worker.Monitoring? && flow.authorized
    case EndRepair => flow.worker.RepairCycle?
    case EndMonitoring => flow.worker.Monitoring?
    case BeginCleanup => flow.worker.AwaitingClose? && flow.closed && flow.cleanup
    case EndWorker => flow.MayCycle()
  }

  /** EndWorker covers the normal end after the close and any failure before it. */
  function FlowActs(flow: Flow, a: FlowAction): Flow {
    match a
    case BeginRepair => flow.(worker := RepairCycle)
    case EndRepair => flow.(worker := Monitoring)
    case EndMonitoring => flow.(worker := AwaitingClose)
    case BeginCleanup => flow.(worker := CleanupCycle)
    case EndWorker => flow.(worker := WorkerDone, done := true)
  }

  /** The worker's next step; the driver call may create the link |w.links|. */
  function CreationActs(w: World, c: CreationId, a: ConnectionCreation.Action): World
    requires c < |w.creations| && ConnectionCreation.Possible(w.creations[c], a)
  {
    var creation := w.creations[c];
    w.(creations := w.creations[c := ConnectionCreation.Do(creation, a)],
       links :=
         match a
         case DoDeliver(Created(_)) => w.links + [Link(creation.device, false)]
         case DoFinish =>
           if creation.stage.unclaimed.Some? && creation.stage.unclaimed.value < |w.links|
           then w.links[creation.stage.unclaimed.value := w.links[creation.stage.unclaimed.value].(closed := true)]
           else w.links
         case _ => w.links)
  }

  // ---------------------------------------------------------------- events

  datatype Event =
    | QuickClicked(device: DeviceId, discovered: bool)
    | ForceClicked(device: DeviceId)
    | Appeared(device: DeviceId, newlyPresent: bool)
    | Left(device: DeviceId)
    | Remembered(device: DeviceId, discovered: bool)
    | ReconnectSet(on: bool)
    | ClosedReported(device: DeviceId, generation: nat, link: LinkId, readsClosed: bool)
    | ShutdownBegan(ids: seq<DeviceId>)
    | HeadRan(now: nat)
    | ExitRan
    | AttemptBegan
    | OldFlowAwaited
    | OuterThrew(timedOut: bool)
    | GateRan
    | RadioResolved(ids: seq<DeviceId>, tasks: seq<FlowId>)
    | FlowAwaited
    | TransactionBegan
    | RecoveryThrew(outcome: Recovery)
    | TransactionEnded(script: RadioTransaction.Script, start: nat, deadline: nat)
    | RecoveryEnded
    | PreparationChecked(fault: Option<AttemptResult>)
    | LookupDone(fault: Option<AttemptResult>)
    | CreationAwaited(error: AttemptResult)
    | InnerThrew(error: AttemptResult)
    | StartAwaited
    | OpenAwaited(status: OpenStatus, isOpen: bool)
    | OpenedAwaited(isOpen: bool)
    | Settled(stillOpened: bool, flowStarts: bool)
    | AttemptDone(now: nat)
    | CloserDone(flow: FlowId)
    | FlowActed(flow: FlowId, flowAction: FlowAction)
    | CreationActed(creation: CreationId, creationAction: ConnectionCreation.Action)
    | LinkRead(link: LinkId, isLive: bool)

  /** What an exception caught inside the attempt can turn into. */
  predicate Faulty(result: AttemptResult) {
    result.DeadlineExceeded? || result.Cancelled? || result.DeniedBySystem?
    || result.AttemptFailed? || result.StartFailed? || result.OpenFailed?
  }

  predicate MaybeFaulty(fault: Option<AttemptResult>) {
    fault.Some? ==> Faulty(fault.value)
  }

  predicate Lists<T(==)>(ids: seq<T>, all: set<T>) {
    && (forall i :: 0 <= i < |ids| ==> ids[i] in all)
    && (forall x :: x in all ==> x in ids)
  }

  function ConnectedIds(sessions: map<DeviceId, Session>): set<DeviceId> {
    set d | d in sessions && sessions[d].phase.Connected?
  }

  // The events come in six groups, each with its own guard and its own effect.

  predicate UserEvent(e: Event) {
    e.QuickClicked? || e.ForceClicked? || e.Appeared? || e.Left? || e.Remembered? || e.ReconnectSet?
    || e.ClosedReported? || e.ShutdownBegan?
  }

  predicate LoopEvent(e: Event) {
    e.HeadRan? || e.ExitRan? || e.AttemptDone?
  }

  predicate OpeningEvent(e: Event) {
    e.AttemptBegan? || e.OldFlowAwaited? || e.OuterThrew? || e.PreparationChecked? || e.LookupDone?
  }

  predicate RecoveryEvent(e: Event) {
    e.GateRan? || e.RadioResolved? || e.FlowAwaited? || e.TransactionBegan? || e.RecoveryThrew?
    || e.TransactionEnded? || e.RecoveryEnded?
  }

  predicate LinkEvent(e: Event) {
    e.CreationAwaited? || e.InnerThrew? || e.StartAwaited? || e.OpenAwaited? || e.OpenedAwaited? || e.Settled?
  }

  predicate BackgroundEvent(e: Event) {
    e.CloserDone? || e.FlowActed? || e.CreationActed? || e.LinkRead?
  }

  /** What the user, the watcher, the driver's callbacks and the shutdown do. */
  predicate UserEnabled(w: World, e: Event) {
    UserEvent(e) && (e.Remembered? ==> e.device in w.desired) && (e.ShutdownBegan? ==> Lists(e.ids, w.sessions.Keys))
  }

  function UserDoes(w: World, e: Event): World
    requires UserEvent(e)
  {
    if e.QuickClicked? then ClickQuick(w, e.device, e.discovered)
    else if e.ForceClicked? then ClickForce(w, e.device)
    else if e.Appeared? then DeviceAppears(w, e.device, e.newlyPresent)
    else if e.Left? then DeviceLeaves(w, e.device)
    else if e.Remembered? then RememberOne(w, e.device, e.discovered)
    else if e.ReconnectSet? then w.(reconnectEnabled := e.on)
    else if e.ClosedReported? then LinkClosed(w, e.device, e.generation, e.link, e.readsClosed)
    else BeginShutdown(w, e.ids)
  }

  /** The queue worker between two attempts. */
  predicate LoopEnabled(w: World, e: Event) {
    || (e.HeadRan? && w.worker.Head?)
    || (e.ExitRan? && w.worker.Exiting?)
    || (e.AttemptDone? && w.worker.Running? && (w.worker.pc.Returned? || w.worker.pc.Threw?))
  }

  function LoopDoes(w: World, e: Event): World
    requires LoopEnabled(w, e)
  {
    if e.HeadRan? then WorkerHead(w, e.now)
    else if e.ExitRan? then WorkerExit(w)
    else if w.worker.pc.Returned? then AttemptReturned(w, e.now)
    else AttemptThrew(w, e.now)
  }

  predicate FlowAwaitedAt(flows: seq<Flow>, f: FlowId) {
    f < |flows| && flows[f].Finished()
  }

  /** The attempt outside recovery, up to its connection's creation. */
  predicate OpeningEnabled(w: World, e: Event) {
    OpeningEvent(e) && w.worker.Running? &&
    var pc := w.worker.pc;
    if e.AttemptBegan? then pc.Popped?
    else if e.OldFlowAwaited? then pc.WaitingOldFlow? && FlowAwaitedAt(w.flows, pc.flow)
    else if e.OuterThrew? then pc.WaitingOldFlow? || pc.LookingUp?
    else if e.PreparationChecked? then pc.AfterRecovery? && MaybeFaulty(e.fault)
    else pc.LookingUp? && MaybeFaulty(e.fault)
  }

  function OpeningDoes(w: World, e: Event): World
    requires OpeningEnabled(w, e)
  {
    if e.AttemptBegan? then AttemptBegins(w)
    else if e.OldFlowAwaited? then OldFlowFinished(w)
    else if e.OuterThrew? then At(w, w.worker.request, Threw(e.timedOut))
    else if e.PreparationChecked? then AfterPreparation(w, e.fault)
    else LookupEnds(w, e.fault)
  }

  /** ResolveBluetoothRadio came back; CheckAsyncDeadline throws for an attempt whose session
      was closed. */
  predicate RadioAnswers(w: World, ids: seq<DeviceId>, tasks: seq<FlowId>) {
    && w.worker.Running? && w.worker.pc.FindingRadio? && w.worker.request.device in w.sessions
    && (w.worker.pc.allow ==> Lists(ids, ConnectedIds(w.sessions)))
    && Lists(tasks, (if w.worker.pc.allow then CloseAll(w, ids) else w).flowTasks.Values)
  }

  /** The attempt inside EnsureBluetoothReady. */
  predicate RecoveryEnabled(w: World, e: Event) {
    RecoveryEvent(e) && w.worker.Running? &&
    var pc := w.worker.pc;
    if e.GateRan? then pc.EnteringRecovery?
    else if e.RadioResolved? then RadioAnswers(w, e.ids, e.tasks)
    else if e.FlowAwaited? then pc.AwaitingFlows? && pc.tasks != [] && FlowAwaitedAt(w.flows, pc.tasks[0])
    else if e.TransactionBegan? then pc.AwaitingFlows? && pc.tasks == []
    else if e.RecoveryThrew? then (pc.FindingRadio? || pc.AwaitingFlows?) && !e.outcome.Ready()
    else if e.TransactionEnded? then pc.InTransaction?
    else pc.FinishingRecovery?
  }

  function RecoveryDoes(w: World, e: Event): World
    requires RecoveryEnabled(w, e)
  {
    var r := w.worker.request;
    var pc := w.worker.pc;
    if e.GateRan? then RecoveryGate(w)
    else if e.RadioResolved? then RadioFound(w, e.ids, e.tasks)
    else if e.FlowAwaited? then At(w, r, AwaitingFlows(pc.allow, pc.tasks[1..]))
    else if e.TransactionBegan? then At(w, r, InTransaction(pc.allow))
    else if e.RecoveryThrew? then At(w, r, FinishingRecovery(e.outcome))
    else if e.TransactionEnded? then
      At(w, r, FinishingRecovery(RadioTransaction.Outcome(e.script, e.start, e.deadline)))
    else RecoveryFinished(w)
  }

  /** The attempt with its connection. */
  predicate LinkEnabled(w: World, e: Event) {
    LinkEvent(e) && w.worker.Running? &&
    var pc := w.worker.pc;
    if e.CreationAwaited? then
      pc.Creating? && pc.creation < |w.creations| && w.creations[pc.creation].Ready() && Faulty(e.error)
    else if e.InnerThrew? then
      && ((pc.Creating? && pc.creation < |w.creations|) || pc.StartingLink? || pc.OpeningLink? || pc.WaitingOpened?)
      && Faulty(e.error)
    else if e.StartAwaited? then pc.StartingLink?
    else if e.OpenAwaited? then pc.OpeningLink?
    else if e.OpenedAwaited? then pc.WaitingOpened?
    else pc.Settling?
  }

  function LinkDoes(w: World, e: Event): World
    requires LinkEnabled(w, e)
  {
    if e.CreationAwaited? then CreationReady(w, e.error)
    else if e.InnerThrew? then AttemptFaults(w, e.error)
    else if e.StartAwaited? then LinkStarted(w)
    else if e.OpenAwaited? then OpenReturned(w, e.status, e.isOpen)
    else if e.OpenedAwaited? then OpenedWaited(w, e.isOpen)
    else Settle(w, e.stillOpened, e.flowStarts)
  }

  /** A closer has waited for its predecessor, and Close returns. */
  predicate CloserMay(flows: seq<Flow>, f: FlowId) {
    && f < |flows| && flows[f].stop && !flows[f].closed
    && (flows[f].predecessor.Some? ==> FlowAwaitedAt(flows, flows[f].predecessor.value))
  }

  predicate CreationMay(w: World, c: CreationId, a: ConnectionCreation.Action) {
    && c < |w.creations| && !a.DoAbandon? && !a.DoTake? && ConnectionCreation.Possible(w.creations[c], a)
    && (a.DoDeliver? && a.outcome.Created? ==> a.outcome.link == |w.links|)
  }

  /** The workers in the background, and what a link reads. */
  predicate BackgroundEnabled(w: World, e: Event) {
    || (e.CloserDone? && CloserMay(w.flows, e.flow))
    || (e.FlowActed? && e.flow < |w.flows| && FlowMay(w.flows[e.flow], e.flowAction))
    || (e.CreationActed? && CreationMay(w, e.creation, e.creationAction))
    || e.LinkRead?
  }

  function BackgroundDoes(w: World, e: Event): World
    requires BackgroundEnabled(w, e)
  {
    if e.CloserDone? then CloserReturns(w, e.flow)
    else if e.FlowActed? then w.(flows := w.flows[e.flow := FlowActs(w.flows[e.flow], e.flowAction)])
    else if e.CreationActed? then CreationActs(w, e.creation, e.creationAction)
    else w.(live := if e.isLive then w.live + {e.link} else w.live - {e.link})
  }

  predicate AttemptEnabled(w: World, e: Event) {
    OpeningEnabled(w, e) || RecoveryEnabled(w, e) || LinkEnabled(w, e)
  }

  predicate Enabled(w: World, e: Event) {
    UserEnabled(w, e) || LoopEnabled(w, e) || AttemptEnabled(w, e) || BackgroundEnabled(w, e)
  }

  /** An event that is not enabled changes nothing. */
  function Apply(w: World, e: Event): World {
    if UserEnabled(w, e) then UserDoes(w, e)
    else if LoopEnabled(w, e) then LoopDoes(w, e)
    else if OpeningEnabled(w, e) then OpeningDoes(w, e)
    else if RecoveryEnabled(w, e) then RecoveryDoes(w, e)
    else if LinkEnabled(w, e) then LinkDoes(w, e)
    else if BackgroundEnabled(w, e) then BackgroundDoes(w, e)
    else w
  }

  /** A started application: settings loaded, nothing connected. */
  predicate Initial(w: World) {
    && !w.stopping && w.sessions == map[] && w.queue == [] && !w.workerRunning && w.worker.Idle?
    && w.generations == map[] && w.lastAttempt == 0
    && w.pending == {} && w.suppressed == {} && w.deferred == {} && w.prepared == {}
    && w.bluetooth == Bluetooth(true, false, NO_DEVICE)
    && w.flows == [] && w.flowTasks == map[] && w.creations == [] && w.slots == map[] && w.links == []
  }
}
