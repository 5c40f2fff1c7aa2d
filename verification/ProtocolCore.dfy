/** The joint invariant of the queue, the sessions and the single worker, kept by every step of
    the protocol. Each part is a predicate over just the fields it speaks about: QueueOk (one
    current request per device, none for a session), SessionsOk (current generations; only the
    attempt in flight owns an unconnected session), WorkerOk (its identity, budget and session),
    RadioOk (recovery in progress is the attempt inside it), RunningOk (a queue has a worker) and
    PendingOk. */
module ProtocolCore {
  import opened Wrappers
  import opened Records
  import opened Protocol

  // ---------------------------------------------------------------- the invariant

  predicate QueuedOk(r: Request, generations: map<DeviceId, nat>, sessions: map<DeviceId, Session>, lastAttempt: nat) {
    && r.device != NO_DEVICE
    && r.device in generations && r.generation == generations[r.device]
    && r.attemptId <= lastAttempt
    && r.device !in sessions
    && r.preparationAttempts <= 2
    && (r.strategy.RestartBluetooth? ==> r.preparationAttempts <= 1)
  }

  predicate Distinct(queue: seq<Request>) {
    forall i, j :: 0 <= i < j < |queue| ==>
      queue[i].device != queue[j].device && queue[i].attemptId != queue[j].attemptId
  }

  predicate QueueOk(queue: seq<Request>, generations: map<DeviceId, nat>, sessions: map<DeviceId, Session>,
                    lastAttempt: nat) {
    && Distinct(queue)
    && forall i :: 0 <= i < |queue| ==> QueuedOk(queue[i], generations, sessions, lastAttempt)
  }

  /** Only the attempt in flight owns a session that is not connected. */
  predicate SessionOk(d: DeviceId, s: Session, generations: map<DeviceId, nat>, worker: Worker) {
    && d in generations && s.generation == generations[d]
    && (s.phase.Connected? ==> s.link.Some?)
    && (s.flow.Some? ==> s.phase.Connected?)
    && (!s.phase.Connected? ==> worker.Running? && worker.request.device == d && worker.pc.Underway())
  }

  predicate SessionsOk(sessions: map<DeviceId, Session>, generations: map<DeviceId, nat>, worker: Worker) {
    forall d :: d in sessions ==> SessionOk(d, sessions[d], generations, worker)
  }

  function LinkAt(pc: Pc): Option<LinkId> {
    match pc
    case StartingLink(l) => Some(l)
    case OpeningLink(l) => Some(l)
    case WaitingOpened(l) => Some(l)
    case Settling(_, current) => current
    case _ => None
  }

  predicate OwnSession(r: Request, pc: Pc, s: Session) {
    && s.generation == r.generation && s.attemptId == r.attemptId
    && !s.phase.Connected? && s.flow.None? && s.link == LinkAt(pc)
  }

  predicate BudgetOk(r: Request, pc: Pc) {
    && r.preparationAttempts <= 2
    && (pc.Popped? || pc.WaitingOldFlow? ==> r.strategy.RestartBluetooth? ==> r.preparationAttempts <= 1)
    && (pc.EnteringRecovery? || pc.Recovering() ==> r.strategy.RestartBluetooth? && 1 <= r.preparationAttempts)
    && (pc.EnteringRecovery? || pc.FindingRadio? || pc.AwaitingFlows? || pc.InTransaction? ==>
          (pc.allow <==> r.mode.Forced? && r.preparationAttempts == 1))
    && (pc.FinishingRecovery? ==> !pc.outcome.NotRequired?)
    && (pc.Settling? && pc.result.Success? ==> pc.current.Some?)
    && !pc.JoiningRecovery?
  }

  predicate PresenceOk(r: Request, pc: Pc, sessions: map<DeviceId, Session>, generations: map<DeviceId, nat>)
    requires r.device in generations
  {
    && (pc.Popped? ==> r.device !in sessions)
    && (pc.Underway() && r.device !in sessions ==> r.generation < generations[r.device])
    && (pc.Underway() && r.device in sessions ==> OwnSession(r, pc, sessions[r.device]))
    && (pc.Returned? && r.device in sessions ==> pc.result.Success?)
  }

  predicate ApartFromQueue(r: Request, queue: seq<Request>, generations: map<DeviceId, nat>)
    requires r.device in generations
  {
    forall i :: 0 <= i < |queue| ==>
      queue[i].attemptId != r.attemptId && (queue[i].device == r.device ==> r.generation < generations[r.device])
  }

  predicate WorkerOk(worker: Worker, queue: seq<Request>, sessions: map<DeviceId, Session>,
                     generations: map<DeviceId, nat>, lastAttempt: nat) {
    worker.Running? ==>
      var r := worker.request;
      && r.device != NO_DEVICE
      && r.device in generations && r.generation <= generations[r.device]
      && r.attemptId <= lastAttempt
      && ApartFromQueue(r, queue, generations)
      && BudgetOk(r, worker.pc)
      && PresenceOk(r, worker.pc, sessions, generations)
  }

  predicate NoneConnected(sessions: map<DeviceId, Session>) {
    forall d :: d in sessions ==> !sessions[d].phase.Connected?
  }

  predicate RadioOk(bluetooth: Bluetooth, worker: Worker, sessions: map<DeviceId, Session>) {
    && (bluetooth.inProgress <==> worker.Running? && worker.pc.Recovering())
    && (bluetooth.inProgress ==> bluetooth.device == worker.request.device)
    && (worker.Running? && (worker.pc.AwaitingFlows? || worker.pc.InTransaction?) && worker.pc.allow ==>
        NoneConnected(sessions))
  }

  predicate RunningOk(workerRunning: bool, worker: Worker, queue: seq<Request>, stopping: bool,
                      sessions: map<DeviceId, Session>) {
    && (workerRunning <==> !worker.Idle?)
    && (queue != [] ==> !worker.Idle?)
    && (stopping ==> queue == [] && sessions == map[])
  }

  predicate PendingOk(pending: set<DeviceId>, desired: seq<DeviceId>) {
    forall d :: d in pending ==> d in desired
  }

  /** What holds in every reachable state of the queue, the sessions and the worker. */
  predicate Core(w: World) {
    && QueueOk(w.queue, w.generations, w.sessions, w.lastAttempt)
    && SessionsOk(w.sessions, w.generations, w.worker)
    && WorkerOk(w.worker, w.queue, w.sessions, w.generations, w.lastAttempt)
    && RadioOk(w.bluetooth, w.worker, w.sessions)
    && RunningOk(w.workerRunning, w.worker, w.queue, w.stopping, w.sessions)
    && PendingOk(w.pending, w.desired)
  }

  // ---------------------------------------------------------------- closing

  predicate Closes(w: World, d: DeviceId, generation: Option<nat>) {
    d in w.sessions && (generation.Some? ==> w.sessions[d].generation == generation.value)
  }

  /** Closing a session touches nothing but the session, its flow and the task entry. */
  lemma CloseEffect(w: World, d: DeviceId, generation: Option<nat>, skip: bool)
    ensures
      var w' := CloseSession(w, d, generation, skip);
      && w' == w.(sessions := w'.sessions, flows := w'.flows, flowTasks := w'.flowTasks)
      && w'.sessions == (if Closes(w, d, generation) then w.sessions - {d} else w.sessions)
  {
  }

  lemma {:induction false} CloseAllEffect(w: World, ids: seq<DeviceId>)
    ensures
      var w' := CloseAll(w, ids);
      && w' == w.(sessions := w'.sessions, flows := w'.flows, flowTasks := w'.flowTasks)
      && w'.sessions == w.sessions - (set d | d in ids)
    decreases |ids|
  {
    hide CloseSession;
    if ids == [] {
      assert w.sessions - (set d | d in ids) == w.sessions;
    } else {
      CloseEffect(w, ids[0], None, false);
      var v := CloseSession(w, ids[0], None, false);
      CloseAllEffect(v, ids[1..]);
      assert (set d | d in ids) == {ids[0]} + (set d | d in ids[1..]);
      assert v.sessions == w.sessions - {ids[0]};
    }
  }

  // ---------------------------------------------------------------- placing a request

  /** Place, branch by branch. */
  lemma PlaceCases(w: World, v: World, d: DeviceId, hasSnapshot: bool, mode: Mode, retry: Option<Request>)
    requires v == Unsuppressed(w, d, mode)
    ensures
      var w' := Place(w, d, hasSnapshot, mode, retry);
      var i := QueueIndex(v.queue, d);
      if i < |v.queue| then
        w' == if !mode.Automatic? && retry.None? then Promote(v, i, hasSnapshot, mode)
              else v.(queue := v.queue[i := v.queue[i].(hasSnapshot := hasSnapshot || v.queue[i].hasSnapshot)])
      else if retry.Some? then w' == Append(v, retry.value)
      else
        var newest := FreshRequest(v, d, hasSnapshot, mode);
        w' == Append(Numbered(v, newest), newest)
  {
    hide Promote, FreshRequest, Append;
  }

  // ---------------------------------------------------------------- beginning an attempt

  lemma AttemptBeginsCases(w: World)
    requires w.worker.Running? && w.worker.pc.Popped?
    ensures
      var r := w.worker.request;
      var w' := AttemptBegins(w);
      || w' == Return(w, r, Cancelled) || w' == Return(w, r, DeviceUnavailable)
      || (&& r.device !in w.sessions && !SlotBusy(w, r.device)
          && w' == if r.device in w.flowTasks then At(Emplaced(w, r), r, WaitingOldFlow(w.flowTasks[r.device]))
                   else BeginPreparation(Emplaced(w, r), r))
  {
    hide BeginPreparation, SlotBusy, Generation, Return;
  }

  /** The invariant does not look at the rest. */
  lemma IdleCore(w: World, v: World)
    requires Core(w)
    requires v == w.(reconnectEnabled := v.reconnectEnabled, prepared := v.prepared, flows := v.flows,
                     creations := v.creations, links := v.links, live := v.live)
    ensures Core(v)
  {
    hide QueueOk, SessionsOk, WorkerOk, RadioOk, RunningOk, PendingOk;
  }

  // ---------------------------------------------------------------- moves of the attempt

  predicate SameAttempt(r: Request, r': Request) {
    r'.device == r.device && r'.generation == r.generation && r'.attemptId == r.attemptId
  }

  /** The attempt goes on: its own session keeps its link. */
  lemma AttemptMoves(w: World, r': Request, pc': Pc)
    requires Core(w) && w.worker.Running? && w.worker.pc.Underway() && pc'.Underway()
    requires SameAttempt(w.worker.request, r') && BudgetOk(r', pc') && LinkAt(pc') == LinkAt(w.worker.pc)
    ensures SessionsOk(w.sessions, w.generations, Running(r', pc'))
    ensures WorkerOk(Running(r', pc'), w.queue, w.sessions, w.generations, w.lastAttempt)
  {
  }

  lemma MoveCore(w: World, r': Request, pc': Pc)
    requires Core(w) && w.worker.Running? && w.worker.pc.Underway() && pc'.Underway()
    requires SameAttempt(w.worker.request, r') && BudgetOk(r', pc') && LinkAt(pc') == LinkAt(w.worker.pc)
    requires w.worker.pc.Recovering() == pc'.Recovering()
    requires (pc'.AwaitingFlows? || pc'.InTransaction?) && pc'.allow ==> NoneConnected(w.sessions)
    ensures Core(At(w, r', pc'))
  {
    AttemptMoves(w, r', pc');
    hide QueueOk, SessionsOk, WorkerOk, PendingOk;
  }

  /** Removing sessions disturbs nobody else; the owner of a removed session must be stale or done. */
  lemma RemovalKeepsOthers(w: World, gone: set<DeviceId>)
    requires Core(w)
    ensures QueueOk(w.queue, w.generations, w.sessions - gone, w.lastAttempt)
    ensures SessionsOk(w.sessions - gone, w.generations, w.worker)
    ensures NoneConnected(w.sessions) ==> NoneConnected(w.sessions - gone)
  {
  }

  /** The attempt returns and its session, if any, is gone. */
  lemma ReturnCore(w: World, w': World, result: AttemptResult)
    requires Core(w) && w.worker.Running? && w.worker.pc.Underway() && !w.worker.pc.Recovering()
    requires w' == CloseAndReturn(w, w.worker.request, result)
      || (var v := CloseAndReturn(w, w.worker.request, result); w' == v.(bluetooth := v.bluetooth.(needed := true)))
    ensures Core(w')
  {
    var r := w.worker.request;
    CloseEffect(w, r.device, Some(r.generation), false);
    hide CloseSession;
    RemovalKeepsOthers(w, {r.device});
    assert w'.sessions == w.sessions - {r.device};
  }

  /** An attempt that gives up without touching its session, because it has none. */
  lemma GiveUpCore(w: World, result: AttemptResult)
    requires Core(w) && w.worker.Running? && !w.worker.pc.Recovering()
    requires w.worker.request.device !in w.sessions
    ensures Core(Return(w, w.worker.request, result))
  {
  }

  lemma OwnSessionCore(w: World, s': Session, pc': Pc)
    requires Core(w) && w.worker.Running? && w.worker.pc.Underway() && pc'.Underway()
    requires w.worker.request.device in w.sessions
      && w.sessions[w.worker.request.device].generation == w.worker.request.generation
    requires OwnSession(w.worker.request, pc', s') && BudgetOk(w.worker.request, pc')
    requires !w.worker.pc.Recovering() && !pc'.Recovering()
    ensures Core(At(w.(sessions := w.sessions[w.worker.request.device := s']), w.worker.request, pc'))
  {
  }

  // ---------------------------------------------------------------- the queue

  lemma {:induction false} WithoutDeviceDistinct(queue: seq<Request>, d: DeviceId)
    requires Distinct(queue)
    ensures Distinct(WithoutDevice(queue, d))
  {
    if queue != [] {
      var tail := queue[1..];
      assert forall i, j :: 0 <= i < j < |tail| ==> tail[i] == queue[i + 1] && tail[j] == queue[j + 1];
      WithoutDeviceDistinct(tail, d);
      var rest := WithoutDevice(tail, d);
      forall j | 0 <= j < |rest|
        ensures rest[j].device != queue[0].device && rest[j].attemptId != queue[0].attemptId
      {
        assert rest[j] in tail;
      }
    }
  }

  /** DisconnectDevice bumps the generation, so an attempt in flight becomes stale. */
  lemma DisconnectCore(w: World, d: DeviceId)
    requires Core(w)
    ensures Core(Disconnect(w, d))
  {
    if !w.stopping {
      var v := Withdrawn(w, d);
      CloseEffect(v, d, None, false);
      hide CloseSession;
      DisconnectQueue(w, d, v.queue, v.generations);
      DisconnectWorker(w, d, v.queue, v.generations);
      RemovalKeepsOthers(w, {d});
      var w' := Disconnect(w, d);
      assert w'.sessions == w.sessions - {d};
    }
  }

  lemma DisconnectQueue(w: World, d: DeviceId, queue: seq<Request>, generations: map<DeviceId, nat>)
    requires Core(w) && queue == WithoutDevice(w.queue, d)
    requires generations == w.generations[d := Generation(w.generations, d) + 1]
    ensures QueueOk(queue, generations, w.sessions - {d}, w.lastAttempt)
  {
    WithoutDeviceDistinct(w.queue, d);
    forall i | 0 <= i < |queue| ensures QueuedOk(queue[i], generations, w.sessions - {d}, w.lastAttempt) {
      assert queue[i] in w.queue;
    }
  }

  lemma DisconnectWorker(w: World, d: DeviceId, queue: seq<Request>, generations: map<DeviceId, nat>)
    requires Core(w) && queue == WithoutDevice(w.queue, d)
    requires generations == w.generations[d := Generation(w.generations, d) + 1]
    ensures SessionsOk(w.sessions - {d}, generations, w.worker)
    ensures WorkerOk(w.worker, queue, w.sessions - {d}, generations, w.lastAttempt)
  {
    if w.worker.Running? {
      forall i | 0 <= i < |queue|
        ensures queue[i].attemptId != w.worker.request.attemptId
          && (queue[i].device == w.worker.request.device ==>
              w.worker.request.generation < generations[w.worker.request.device])
      {
        assert queue[i] in w.queue;
      }
    }
  }

  /** A new generation and attempt id for a device without a session. */
  lemma NewestRequestCore(w: World, d: DeviceId, r: Request, queue: seq<Request>, k: nat)
    requires Core(w) && d != NO_DEVICE && d !in w.sessions
    requires r.device == d && r.generation == Generation(w.generations, d) + 1 && r.attemptId == w.lastAttempt + 1
    requires r.preparationAttempts == 0
    requires |w.queue| <= |queue| <= |w.queue| + 1
    requires k < |queue| && queue[k] == r && (k < |w.queue| ==> w.queue[k].device == d)
    requires forall i :: 0 <= i < |queue| && i != k ==> i < |w.queue| && queue[i] == w.queue[i] && queue[i].device != d
    ensures QueueOk(queue, w.generations[d := r.generation], w.sessions, r.attemptId)
    ensures SessionsOk(w.sessions, w.generations[d := r.generation], w.worker)
    ensures WorkerOk(w.worker, queue, w.sessions, w.generations[d := r.generation], r.attemptId)
  {
  }

  predicate RetryOk(w: World, r: Request) {
    && r.device in w.generations && r.generation == w.generations[r.device]
    && r.attemptId <= w.lastAttempt
    && r.preparationAttempts <= 2
    && (r.strategy.RestartBluetooth? ==> r.preparationAttempts <= 1)
    && (forall i :: 0 <= i < |w.queue| ==> w.queue[i].attemptId != r.attemptId)
    && w.worker.Head?
  }

  lemma PlaceCore(w: World, d: DeviceId, hasSnapshot: bool, mode: Mode, retry: Option<Request>)
    requires Core(w) && d != NO_DEVICE && d !in w.sessions && !w.stopping
    requires retry.Some? ==> retry.value.device == d && RetryOk(w, retry.value)
    ensures Core(Place(w, d, hasSnapshot, mode, retry))
  {
    hide CloseSession;
    var v := Unsuppressed(w, d, mode);
    var i := QueueIndex(v.queue, d);
    if i < |v.queue| {
      if !mode.Automatic? && retry.None? {
        PromoteCore(v, i, hasSnapshot, mode);
      } else {
        TouchCore(v, i, v.queue[i].(hasSnapshot := hasSnapshot || v.queue[i].hasSnapshot));
      }
    } else if retry.Some? {
    } else {
      AppendNewestCore(v, d, hasSnapshot, mode);
    }
  }

  lemma PromoteCore(w: World, i: nat, hasSnapshot: bool, mode: Mode)
    requires Core(w) && i < |w.queue| && !w.stopping
    ensures Core(Promote(w, i, hasSnapshot, mode))
  {
    hide Core, QueueOk, SessionsOk, WorkerOk, FreshRequest, Promote;
    var r := FreshRequest(w, w.queue[i].device, hasSnapshot || w.queue[i].hasSnapshot, mode);
    FreshIsNew(w, w.queue[i].device, hasSnapshot || w.queue[i].hasSnapshot, mode);
    ReplacedCore(w, i, r);
    PromotedCore(w, i, hasSnapshot, mode, r);
  }

  lemma PromotedCore(w: World, i: nat, hasSnapshot: bool, mode: Mode, r: Request)
    requires Core(w) && i < |w.queue|
      && r == FreshRequest(w, w.queue[i].device, hasSnapshot || w.queue[i].hasSnapshot, mode)
    requires QueueOk(w.queue[i := r], w.generations[r.device := r.generation], w.sessions, r.attemptId)
    requires SessionsOk(w.sessions, w.generations[r.device := r.generation], w.worker)
    requires WorkerOk(w.worker, w.queue[i := r], w.sessions, w.generations[r.device := r.generation], r.attemptId)
    ensures Core(Promote(w, i, hasSnapshot, mode))
  {
    hide Core, FreshRequest, QueueOk, SessionsOk, WorkerOk;
    RequeuedCore(w, Promote(w, i, hasSnapshot, mode));
  }

  lemma ReplacedCore(w: World, i: nat, r: Request)
    requires Core(w) && i < |w.queue| && r.device == w.queue[i].device && r.attemptId == w.lastAttempt + 1
    requires r.generation == Generation(w.generations, r.device) + 1 && r.preparationAttempts == 0
    ensures QueueOk(w.queue[i := r], w.generations[r.device := r.generation], w.sessions, r.attemptId)
    ensures SessionsOk(w.sessions, w.generations[r.device := r.generation], w.worker)
    ensures WorkerOk(w.worker, w.queue[i := r], w.sessions, w.generations[r.device := r.generation], r.attemptId)
  {
    OneOfItsDevice(w, i);
    hide Core;
    NewestRequestCore(w, r.device, r, w.queue[i := r], i);
  }

  lemma FreshIsNew(w: World, d: DeviceId, hasSnapshot: bool, mode: Mode)
    ensures
      var r := FreshRequest(w, d, hasSnapshot, mode);
      && r.device == d && r.generation == Generation(w.generations, d) + 1 && r.attemptId == w.lastAttempt + 1
      && r.preparationAttempts == 0
  {
  }

  lemma OneOfItsDevice(w: World, i: nat)
    requires QueueOk(w.queue, w.generations, w.sessions, w.lastAttempt) && i < |w.queue|
    ensures w.queue[i].device != NO_DEVICE && w.queue[i].device !in w.sessions
    ensures forall j :: 0 <= j < |w.queue| && j != i ==> w.queue[j].device != w.queue[i].device
  {
    assert QueuedOk(w.queue[i], w.generations, w.sessions, w.lastAttempt);
  }

  lemma RequeuedCore(w: World, w': World)
    requires Core(w) && w' == w.(queue := w'.queue, generations := w'.generations, lastAttempt := w'.lastAttempt)
    requires QueueOk(w'.queue, w'.generations, w.sessions, w'.lastAttempt)
    requires SessionsOk(w.sessions, w'.generations, w.worker)
    requires WorkerOk(w.worker, w'.queue, w.sessions, w'.generations, w'.lastAttempt)
    requires w'.queue != [] ==> w.queue != []
    ensures Core(w')
  {
    hide QueueOk, SessionsOk, WorkerOk, RadioOk, PendingOk;
  }

  lemma TouchCore(w: World, i: nat, r: Request)
    requires Core(w) && i < |w.queue|
    requires r == w.queue[i].(hasSnapshot := r.hasSnapshot)
    ensures Core(w.(queue := w.queue[i := r]))
  {
  }

  lemma AppendNewestCore(w: World, d: DeviceId, hasSnapshot: bool, mode: Mode)
    requires Core(w) && d != NO_DEVICE && d !in w.sessions && !w.stopping
    requires forall j :: 0 <= j < |w.queue| ==> w.queue[j].device != d
    ensures
      var r := FreshRequest(w, d, hasSnapshot, mode);
      Core(Append(Numbered(w, r), r))
  {
    var r := FreshRequest(w, d, hasSnapshot, mode);
    var queue := w.queue + [r];
    assert queue[|w.queue|] == r;
    NewestRequestCore(w, d, r, queue, |w.queue|);
  }

  /** A click, a reconnect or a retry: gates, Forced teardown, then placement. */
  lemma EnqueueCore(w: World, d: DeviceId, hasSnapshot: bool, mode: Mode, retry: Option<Request>)
    requires Core(w)
    requires retry.Some? ==> retry.value.device == d && RetryOk(w, retry.value) && d !in w.sessions
    ensures Core(Enqueue(w, d, hasSnapshot, mode, retry))
  {
    hide Place;
    if Admitted(w, d, mode) {
      var v := if mode.Forced? then CloseSession(w, d, None, true) else w;
      CloseEffect(w, d, None, true);
      hide CloseSession;
      ConnectedRemovalCore(w, v, d);
      PlaceCore(v, d, hasSnapshot, mode, retry);
    }
  }

  /** Closing a connected session: no attempt owns it, so nothing becomes stale. */
  lemma ConnectedRemovalCore(w: World, v: World, d: DeviceId)
    requires Core(w) && (d in w.sessions ==> w.sessions[d].phase.Connected?)
    requires v == w.(sessions := v.sessions, flows := v.flows, flowTasks := v.flowTasks)
    requires v.sessions == w.sessions - {d} || (v.sessions == w.sessions && d !in w.sessions)
    ensures Core(v)
  {
    RemovalKeepsOthers(w, {d});
    assert v.sessions == w.sessions - {d};
  }

  // ---------------------------------------------------------------- user and system events

  lemma ClickQuickCore(w: World, d: DeviceId, discovered: bool)
    requires Core(w)
    ensures Core(ClickQuick(w, d, discovered))
  {
    hide Disconnect, Enqueue;
    DisconnectCore(w, d);
    EnqueueCore(w, d, true, Quick, None);
  }

  lemma ClickForceCore(w: World, d: DeviceId)
    requires Core(w)
    ensures Core(ClickForce(w, d))
  {
    hide Enqueue;
    EnqueueCore(w, d, false, Forced, None);
  }

  lemma MaybeReconnectCore(w: World, d: DeviceId)
    requires Core(w)
    ensures Core(MaybeReconnect(w, d))
  {
    hide Enqueue;
    EnqueueCore(w, d, true, Automatic, None);
  }

  lemma ResetNotBeforeCore(w: World, d: DeviceId)
    requires Core(w)
    ensures Core(w.(queue := ResetNotBefore(w.queue, d)))
  {
    hide ResetNotBefore, SessionsOk, RadioOk, PendingOk, BudgetOk, PresenceOk;
    var queue := ResetNotBefore(w.queue, d);
    forall i | 0 <= i < |queue| ensures QueuedOk(queue[i], w.generations, w.sessions, w.lastAttempt) {
      assert QueuedOk(w.queue[i], w.generations, w.sessions, w.lastAttempt);
    }
  }

  lemma AppearsCore(w: World, d: DeviceId, newlyPresent: bool)
    requires Core(w)
    ensures Core(DeviceAppears(w, d, newlyPresent))
  {
    hide MaybeReconnect;
    ResetNotBeforeCore(w, d);
    MaybeReconnectCore(w, d);
    MaybeReconnectCore(w.(queue := ResetNotBefore(w.queue, d)), d);
  }

  lemma RememberCore(w: World, d: DeviceId, discovered: bool)
    requires Core(w) && d in w.desired
    ensures Core(RememberOne(w, d, discovered))
  {
    hide MaybeReconnect;
    MaybeReconnectCore(w.(pending := w.pending + {d}), d);
  }

  lemma LinkClosedCore(w: World, d: DeviceId, generation: nat, link: LinkId, readsClosed: bool)
    requires Core(w)
    ensures Core(LinkClosed(w, d, generation, link, readsClosed))
  {
    var v := Muted(w, d);
    CloseEffect(v, d, Some(generation), true);
    hide CloseSession;
    var w' := LinkClosed(w, d, generation, link, readsClosed);
    if w' != w {
      ConnectedRemovalCore(v, w', d);
    }
  }

  lemma ShutdownCore(w: World, ids: seq<DeviceId>)
    requires Core(w) && Lists(ids, w.sessions.Keys)
    ensures Core(BeginShutdown(w, ids))
  {
    if !w.stopping {
      var v := Halted(w);
      CloseAllEffect(v, ids);
      hide CloseAll;
      var w' := BeginShutdown(w, ids);
      assert w'.sessions == map[];
    }
  }

  // ---------------------------------------------------------------- the worker loop

  lemma HeadCore(w: World, now: nat)
    requires Core(w) && w.worker.Head?
    ensures Core(WorkerHead(w, now))
  {
    if w.queue != [] {
      var i := NextIndex(w.queue);
      PopCore(w, i);
    }
  }

  lemma PopCore(w: World, i: nat)
    requires Core(w) && w.worker.Head? && i < |w.queue| && !w.bluetooth.inProgress
    ensures Core(w.(queue := RemoveAt(w.queue, i)))
    ensures Core(w.(queue := RemoveAt(w.queue, i), worker := Running(w.queue[i], Popped)))
  {
    hide CloseSession;
  }

  lemma ExitCore(w: World)
    requires Core(w) && w.worker.Exiting?
    ensures Core(WorkerExit(w))
  {
    hide QueueOk, PendingOk;
  }

  lemma FinishCore(w: World, r: Request, result: AttemptResult, now: nat)
    requires Core(w) && w.worker.Running? && !w.worker.pc.Recovering() && w.worker.request == r
    requires w.worker.pc.Underway() ==> r.device !in w.sessions
    ensures Core(FinishAttempt(w, r, result, now))
  {
    hide Enqueue;
    var failed := !result.Success? && !result.Cancelled?;
    var v := w.(worker := Head, bluetooth := if failed then w.bluetooth.(needed := true) else w.bluetooth);
    assert Core(v);
    if CanRetryConnection(r, result) && Generation(w.generations, r.device) == r.generation && r.device !in w.sessions {
      EnqueueCore(v, r.device, false, r.mode, Some(RetryRequest(r, now)));
    }
  }

  lemma ReturnedCore(w: World, now: nat)
    requires Core(w) && w.worker.Running? && w.worker.pc.Returned?
    ensures Core(AttemptReturned(w, now))
  {
    hide FinishAttempt;
    FinishCore(w, w.worker.request, w.worker.pc.result, now);
  }

  /** An exception ends the attempt as if it had closed its session and returned. */
  lemma ThrewReturns(w: World, now: nat) returns (result: AttemptResult)
    requires w.worker.Running? && w.worker.pc.Threw?
    ensures AttemptThrew(w, now) == AttemptReturned(CloseAndReturn(w, w.worker.request, result), now)
  {
    hide CloseSession, Enqueue, ThrownResult, CanRetryConnection, RetryRequest, Generation, Queued;
    result := ThrownResult(w, w.worker.request, w.worker.pc.timedOut);
  }

  lemma ThrewCore(w: World, now: nat)
    requires Core(w) && w.worker.Running? && w.worker.pc.Threw?
    ensures Core(AttemptThrew(w, now))
  {
    hide Core, AttemptThrew, AttemptReturned, CloseSession;
    var result := ThrewReturns(w, now);
    var v := CloseAndReturn(w, w.worker.request, result);
    ReturnCore(w, v, result);
    ReturnedCore(v, now);
  }

  // ---------------------------------------------------------------- the attempt's segments

  lemma PreparingCore(w: World, prepared: set<DeviceId>)
    requires Core(w) && w.worker.Running? && w.worker.pc.WaitingOldFlow? && w.worker.request.strategy.RestartBluetooth?
    ensures
      var r := w.worker.request;
      Core(At(w.(prepared := prepared), r.(preparationAttempts := r.preparationAttempts + 1),
              EnteringRecovery(r.mode.Forced? && r.preparationAttempts == 0)))
  {
    var r := w.worker.request;
    assert BudgetOk(r, w.worker.pc);
    hide Core;
    IdleCore(w, w.(prepared := prepared));
    MoveCore(w.(prepared := prepared), r.(preparationAttempts := r.preparationAttempts + 1),
             EnteringRecovery(r.mode.Forced? && r.preparationAttempts == 0));
  }

  lemma BeginPreparationCore(w: World)
    requires Core(w) && w.worker.Running? && w.worker.pc.WaitingOldFlow?
    ensures Core(BeginPreparation(w, w.worker.request))
  {
    assert BudgetOk(w.worker.request, w.worker.pc);
    hide Core, At;
    if w.worker.request.strategy.Direct? {
      MoveCore(w, w.worker.request, AfterRecovery(NotRequired));
    } else {
      PreparingCore(w, w.prepared - {w.worker.request.device});
    }
  }

  lemma BeginsCore(w: World)
    requires Core(w) && w.worker.Running? && w.worker.pc.Popped?
    ensures Core(AttemptBegins(w))
  {
    hide BeginPreparation, CloseSession;
    var r := w.worker.request;
    var d := r.device;
    if w.stopping || Generation(w.generations, d) != r.generation {
      GiveUpCore(w, Cancelled);
    } else if SlotBusy(w, d) {
      GiveUpCore(w, DeviceUnavailable);
    } else {
      var phase := if r.strategy.Direct? then Phase.Starting else RecoveringBluetooth;
      var v := w.(slots := w.slots - {d},
                  sessions := w.sessions[d := Session(r.generation, r.attemptId, phase, None, None)]);
      EmplaceCore(w, v, phase, 0);
      if d in w.flowTasks {
        EmplaceCore(w, v, phase, w.flowTasks[d]);
      } else {
        BeginPreparationCore(At(v, r, WaitingOldFlow(0)));
        BeginIgnoresPc(v, r, WaitingOldFlow(0));
      }
    }
  }

  lemma BeginIgnoresPc(w: World, r: Request, pc: Pc)
    ensures BeginPreparation(At(w, r, pc), r) == BeginPreparation(w, r)
  {
  }

  lemma EmplaceCore(w: World, v: World, phase: Phase, f: FlowId)
    requires Core(w) && w.worker.Running? && w.worker.pc.Popped? && !w.stopping && !phase.Connected?
    requires w.generations[w.worker.request.device] == w.worker.request.generation
    requires v == w.(slots := v.slots,
      sessions := w.sessions[w.worker.request.device :=
        Session(w.worker.request.generation, w.worker.request.attemptId, phase, None, None)])
    ensures Core(At(v, w.worker.request, WaitingOldFlow(f)))
  {
  }

  lemma OldFlowCore(w: World)
    requires Core(w) && w.worker.Running? && w.worker.pc.WaitingOldFlow?
    ensures Core(OldFlowFinished(w))
  {
    hide BeginPreparation;
    var r := w.worker.request;
    if !IsCurrent(w, r, None) || w.stopping {
      GiveUpCore(w, Cancelled);
    } else {
      BeginPreparationCore(w.(flowTasks := w.flowTasks - {r.device}));
    }
  }

  lemma OuterThrewCore(w: World, timedOut: bool)
    requires Core(w) && w.worker.Running? && (w.worker.pc.WaitingOldFlow? || w.worker.pc.LookingUp?)
    ensures Core(At(w, w.worker.request, Threw(timedOut)))
  {
    MoveCore(w, w.worker.request, Threw(timedOut));
  }

  lemma PreparationEndsCore(w: World, outcome: Recovery)
    requires Core(w) && w.worker.Running? && w.worker.pc.EnteringRecovery?
    ensures Core(PreparationEnds(w, w.worker.request, outcome))
  {
    var r := w.worker.request;
    assert BudgetOk(r, w.worker.pc);
    hide Core;
    MoveCore(w, r.(preparationResult := outcome, strategy := if outcome.Ready() then Direct else r.strategy),
             AfterRecovery(outcome));
  }

  lemma GateCore(w: World)
    requires Core(w) && w.worker.Running? && w.worker.pc.EnteringRecovery?
    ensures Core(RecoveryGate(w))
  {
    hide HasLivePlayback, PreparationEnds;
    var r := w.worker.request;
    var v := w.(bluetooth := w.bluetooth.(needed := true));
    PreparationEndsCore(v, NotRequired);
    PreparationEndsCore(v, UnexpectedFailure);
    AttemptMoves(v, r, FindingRadio(w.worker.pc.allow));
  }

  lemma RadioFoundCore(w: World, ids: seq<DeviceId>, tasks: seq<FlowId>)
    requires Core(w) && w.worker.Running? && w.worker.pc.FindingRadio? && w.worker.request.device in w.sessions
    requires w.worker.pc.allow ==> Lists(ids, ConnectedIds(w.sessions))
    ensures Core(RadioFound(w, ids, tasks))
  {
    var pc := AwaitingFlows(w.worker.pc.allow, tasks);
    if w.worker.pc.allow {
      var v := CloseAll(w, ids);
      CloseAllEffect(w, ids);
      hide CloseAll;
      RevokedCore(w, v, set d | d in ids);
      MoveCore(v, w.worker.request, pc);
    } else {
      MoveCore(w, w.worker.request, pc);
    }
  }

  /** All connected sessions, and nothing else, were revoked. */
  lemma RevokedCore(w: World, v: World, gone: set<DeviceId>)
    requires Core(w) && gone == ConnectedIds(w.sessions)
    requires v == w.(sessions := v.sessions, flows := v.flows, flowTasks := v.flowTasks)
    requires v.sessions == w.sessions - gone
    ensures Core(v) && NoneConnected(v.sessions)
  {
    RemovalKeepsOthers(w, gone);
  }

  lemma TransactionCore(w: World, outcome: Recovery)
    requires Core(w) && w.worker.Running?
      && (w.worker.pc.FindingRadio? || w.worker.pc.AwaitingFlows? || w.worker.pc.InTransaction?)
    requires !outcome.NotRequired?
    ensures Core(At(w, w.worker.request, FinishingRecovery(outcome)))
  {
    MoveCore(w, w.worker.request, FinishingRecovery(outcome));
  }

  lemma AwaitingCore(w: World, pc': Pc)
    requires Core(w) && w.worker.Running? && w.worker.pc.AwaitingFlows?
    requires (pc'.AwaitingFlows? || pc'.InTransaction?) && pc'.allow == w.worker.pc.allow
    ensures Core(At(w, w.worker.request, pc'))
  {
    MoveCore(w, w.worker.request, pc');
  }

  lemma RecoveryFinishedCore(w: World)
    requires Core(w) && w.worker.Running? && w.worker.pc.FinishingRecovery?
    ensures Core(RecoveryFinished(w))
  {
    var r := w.worker.request;
    var outcome := w.worker.pc.outcome;
    AttemptMoves(w, r.(preparationResult := outcome, strategy := if outcome.Ready() then Direct else r.strategy),
                 AfterRecovery(outcome));
  }

  lemma BeginCreationCore(w: World, fault: Option<AttemptResult>)
    requires Core(w) && w.worker.Running? && (w.worker.pc.AfterRecovery? || w.worker.pc.LookingUp?)
    requires IsCurrent(w, w.worker.request, None) && MaybeFaulty(fault)
    ensures Core(BeginCreation(w, w.worker.request, fault))
  {
    var r := w.worker.request;
    var s := w.sessions[r.device].(phase := Phase.Starting);
    OwnSessionCore(w, s, Creating(|w.creations|));
    if fault.Some? {
      OwnSessionCore(w, s, Settling(fault.value, None));
    }
  }

  lemma AfterPreparationCore(w: World, fault: Option<AttemptResult>)
    requires Core(w) && w.worker.Running? && w.worker.pc.AfterRecovery? && MaybeFaulty(fault)
    ensures Core(AfterPreparation(w, fault))
  {
    hide CloseAndReturn, BeginCreation;
    var r := w.worker.request;
    var outcome := w.worker.pc.outcome;
    if !IsCurrent(w, r, None) || w.stopping {
      ReturnCore(w, CloseAndReturn(w, r, Cancelled), Cancelled);
    } else if !outcome.Ready() {
      var result := if outcome.RecoveryCancelled? then Cancelled else BluetoothRecoveryFailed;
      ReturnCore(w, CloseAndReturn(w, r, result), result);
    } else {
      MoveCore(w, w.worker.request, LookingUp);
      BeginCreationCore(w, fault);
    }
  }

  lemma LookupCore(w: World, fault: Option<AttemptResult>)
    requires Core(w) && w.worker.Running? && w.worker.pc.LookingUp? && MaybeFaulty(fault)
    ensures Core(LookupEnds(w, fault))
  {
    hide CloseAndReturn, BeginCreation;
    var r := w.worker.request;
    if !IsCurrent(w, r, None) || w.stopping {
      ReturnCore(w, CloseAndReturn(w, r, Cancelled), Cancelled);
    } else {
      BeginCreationCore(w, fault);
    }
  }

  lemma ClaimCore(w: World, after: ConnectionCreation.Creation, result: ConnectionCreation.TakeResult,
                  fault: AttemptResult)
    requires Core(w) && w.worker.Running? && w.worker.pc.Creating? && w.worker.pc.creation < |w.creations|
      && Faulty(fault)
    requires IsCurrent(w, w.worker.request, None)
    ensures Core(Claim(w, w.worker.request, w.worker.pc.creation, after, result, fault))
  {
    hide Core, IsCurrent, HandOver, ConnectionCreation.Abandon;
    var c := w.worker.pc.creation;
    if !result.Taken? {
      UnclaimedCore(w, UpdateCreation(w, c, ConnectionCreation.Abandon(after)), fault);
    } else if result.connection.None? {
      UnclaimedCore(w, UpdateCreation(w, c, after), DeviceUnavailable);
    } else {
      HandOverCore(w, UpdateCreation(w, c, after), result.connection.value);
    }
  }

  lemma UnclaimedCore(w: World, v: World, result: AttemptResult)
    requires Core(w) && w.worker.Running? && w.worker.pc.Creating? && !result.Success?
    requires v == w.(creations := v.creations)
    ensures Core(At(v, w.worker.request, Settling(result, None)))
  {
    assert BudgetOk(w.worker.request, w.worker.pc);
    hide Core;
    IdleCore(w, v);
    MoveCore(v, w.worker.request, Settling(result, None));
  }

  lemma HandOverCore(w: World, v: World, l: LinkId)
    requires Core(w) && w.worker.Running? && w.worker.pc.Creating? && IsCurrent(w, w.worker.request, None)
    requires v == w.(creations := v.creations)
    ensures Core(HandOver(v, w.worker.request, l))
  {
    OwnSessionCore(v, v.sessions[v.worker.request.device].(link := Some(l)), StartingLink(l));
  }

  lemma CreationReadyCore(w: World, fault: AttemptResult)
    requires Core(w) && w.worker.Running? && w.worker.pc.Creating? && w.worker.pc.creation < |w.creations|
      && Faulty(fault)
    ensures Core(CreationReady(w, fault))
  {
    hide ConnectionCreation.Take, ConnectionCreation.Abandon, Claim;
    var r := w.worker.request;
    var c := w.worker.pc.creation;
    if !IsCurrent(w, r, None) || w.stopping {
      GiveUpCore(UpdateCreation(w, c, ConnectionCreation.Abandon(w.creations[c])), Cancelled);
    } else {
      ClaimCore(w, ConnectionCreation.Take(w.creations[c]).0, ConnectionCreation.Take(w.creations[c]).1, fault);
    }
  }

  lemma AttemptFaultsCore(w: World, fault: AttemptResult)
    requires Core(w) && w.worker.Running? && Faulty(fault)
    requires w.worker.pc.StartingLink? || w.worker.pc.OpeningLink? || w.worker.pc.WaitingOpened?
      || (w.worker.pc.Creating? && w.worker.pc.creation < |w.creations|)
    ensures Core(AttemptFaults(w, fault))
  {
    MoveCore(w, w.worker.request, Settling(fault, LinkAt(w.worker.pc)));
  }

  lemma LinkStartedCore(w: World)
    requires Core(w) && w.worker.Running? && w.worker.pc.StartingLink?
    ensures Core(LinkStarted(w))
  {
    hide CloseAndReturn;
    var r := w.worker.request;
    var l := w.worker.pc.link;
    if !IsCurrent(w, r, Some(l)) || w.stopping {
      ReturnCore(w, CloseAndReturn(w, r, Lost(w, r)), Lost(w, r));
    } else {
      OwnSessionCore(w, w.sessions[r.device].(phase := Phase.Opening), OpeningLink(l));
    }
  }

  lemma OpenReturnedCore(w: World, status: OpenStatus, isOpen: bool)
    requires Core(w) && w.worker.Running? && w.worker.pc.OpeningLink?
    ensures Core(OpenReturned(w, status, isOpen))
  {
    hide CloseAndReturn;
    var r := w.worker.request;
    var l := w.worker.pc.link;
    if !IsCurrent(w, r, Some(l)) || w.stopping {
      ReturnCore(w, CloseAndReturn(w, r, Lost(w, r)), Lost(w, r));
    } else if status.OpenSucceeded? {
      OwnSessionCore(w, w.sessions[r.device].(phase := Phase.WaitingForOpened),
        if isOpen then Settling(Success, Some(l)) else WaitingOpened(l));
    } else {
      var result :=
        if status.RequestTimedOut? then OpenTimedOut else if status.RequestDenied? then DeniedBySystem else OpenFailed;
      MoveCore(w, r, Settling(result, Some(l)));
    }
  }

  lemma OpenedWaitedCore(w: World, isOpen: bool)
    requires Core(w) && w.worker.Running? && w.worker.pc.WaitingOpened?
    ensures Core(OpenedWaited(w, isOpen))
  {
    hide CloseAndReturn;
    var r := w.worker.request;
    var l := w.worker.pc.link;
    if !IsCurrent(w, r, Some(l)) || w.stopping {
      ReturnCore(w, CloseAndReturn(w, r, Cancelled), Cancelled);
    } else {
      MoveCore(w, w.worker.request, Settling(if isOpen then Success else ClosedUnexpectedly, Some(l)));
    }
  }

  lemma CommitCore(w: World, flowStarts: bool)
    requires Core(w) && w.worker.Running? && w.worker.pc.Settling? && !w.stopping
    requires IsCurrent(w, w.worker.request, w.worker.pc.current) && w.worker.pc.current.Some?
    ensures Core(Commit(w, w.worker.request, flowStarts))
  {
  }

  lemma SettleCore(w: World, stillOpened: bool, flowStarts: bool)
    requires Core(w) && w.worker.Running? && w.worker.pc.Settling?
    ensures Core(Settle(w, stillOpened, flowStarts))
  {
    hide CloseSession, Commit;
    var r := w.worker.request;
    var pc := w.worker.pc;
    var result := if pc.result.Success? && !stillOpened then ClosedUnexpectedly else pc.result;
    if !IsCurrent(w, r, pc.current) || w.stopping {
      ReturnCore(w, CloseAndReturn(w, r, Lost(w, r)), Lost(w, r));
    } else if result.Success? {
      CommitCore(w, flowStarts);
    } else {
      ReturnCore(w, Settle(w, stillOpened, flowStarts), result);
    }
  }

  // ---------------------------------------------------------------- every step

  lemma UserCore(w: World, e: Event)
    requires Core(w) && UserEnabled(w, e)
    ensures Core(UserDoes(w, e))
  {
    hide Core, ClickQuick, ClickForce, DeviceAppears, RememberOne, LinkClosed, BeginShutdown, DeviceLeaves, Lists;
    if e.QuickClicked? {
      ClickQuickCore(w, e.device, e.discovered);
    } else if e.ForceClicked? {
      ClickForceCore(w, e.device);
    } else if e.Appeared? {
      AppearsCore(w, e.device, e.newlyPresent);
    } else if e.Left? {
      LeavesCore(w, e.device);
    } else if e.Remembered? {
      RememberCore(w, e.device, e.discovered);
    } else if e.ReconnectSet? {
      IdleCore(w, w.(reconnectEnabled := e.on));
    } else if e.ClosedReported? {
      LinkClosedCore(w, e.device, e.generation, e.link, e.readsClosed);
    } else {
      ShutdownCore(w, e.ids);
    }
  }

  lemma LeavesCore(w: World, d: DeviceId)
    requires Core(w)
    ensures Core(DeviceLeaves(w, d))
  {
    hide QueueOk, SessionsOk, WorkerOk, RadioOk, RunningOk, Queued;
  }

  lemma LoopCore(w: World, e: Event)
    requires Core(w) && LoopEnabled(w, e)
    ensures Core(LoopDoes(w, e))
  {
    hide Core, WorkerHead, WorkerExit, AttemptReturned, AttemptThrew;
    if e.HeadRan? {
      HeadCore(w, e.now);
    } else if e.ExitRan? {
      ExitCore(w);
    } else if w.worker.pc.Returned? {
      ReturnedCore(w, e.now);
    } else {
      ThrewCore(w, e.now);
    }
  }

  lemma OpeningCore(w: World, e: Event)
    requires Core(w) && OpeningEnabled(w, e)
    ensures Core(OpeningDoes(w, e))
  {
    hide Core, AttemptBegins, OldFlowFinished, AfterPreparation, LookupEnds, MaybeFaulty;
    if e.AttemptBegan? {
      BeginsCore(w);
    } else if e.OldFlowAwaited? {
      OldFlowCore(w);
    } else if e.OuterThrew? {
      OuterThrewCore(w, e.timedOut);
    } else if e.PreparationChecked? {
      AfterPreparationCore(w, e.fault);
    } else {
      LookupCore(w, e.fault);
    }
  }

  lemma RecoveryCore(w: World, e: Event)
    requires Core(w) && RecoveryEnabled(w, e)
    ensures Core(RecoveryDoes(w, e))
  {
    hide Core, RecoveryGate, RadioFound, RecoveryFinished, CloseAll, RadioTransaction.Outcome;
    if e.GateRan? {
      GateCore(w);
    } else if e.RadioResolved? {
      RadioFoundCore(w, e.ids, e.tasks);
    } else if e.FlowAwaited? {
      AwaitingCore(w, AwaitingFlows(w.worker.pc.allow, w.worker.pc.tasks[1..]));
    } else if e.TransactionBegan? {
      AwaitingCore(w, InTransaction(w.worker.pc.allow));
    } else if e.RecoveryThrew? {
      TransactionCore(w, e.outcome);
    } else if e.TransactionEnded? {
      RadioTransaction.TransactionGuarantees(e.script, e.start, e.deadline);
      TransactionCore(w, RadioTransaction.Outcome(e.script, e.start, e.deadline));
    } else {
      RecoveryFinishedCore(w);
    }
  }

  lemma LinkCore(w: World, e: Event)
    requires Core(w) && LinkEnabled(w, e)
    ensures Core(LinkDoes(w, e))
  {
    hide Core, CreationReady, AttemptFaults, LinkStarted, OpenReturned, OpenedWaited, Settle, Faulty;
    if e.CreationAwaited? {
      CreationReadyCore(w, e.error);
    } else if e.InnerThrew? {
      AttemptFaultsCore(w, e.error);
    } else if e.StartAwaited? {
      LinkStartedCore(w);
    } else if e.OpenAwaited? {
      OpenReturnedCore(w, e.status, e.isOpen);
    } else if e.OpenedAwaited? {
      OpenedWaitedCore(w, e.isOpen);
    } else {
      SettleCore(w, e.stillOpened, e.flowStarts);
    }
  }

  /** Background workers touch flows, creations and links only. */
  lemma BackgroundEffect(w: World, e: Event)
    requires BackgroundEnabled(w, e)
    ensures
      var w' := BackgroundDoes(w, e);
      w' == w.(flows := w'.flows, creations := w'.creations, links := w'.links, live := w'.live)
  {
    hide CloserMay, CreationMay, FlowMay, FlowActs, ConnectionCreation.Do;
  }

  /** An enabled event is enabled in its own group, and the step is the group's. */
  lemma StepByGroup(w: World, e: Event)
    requires Enabled(w, e)
    ensures (UserEvent(e) <==> UserEnabled(w, e)) && (UserEnabled(w, e) ==> Apply(w, e) == UserDoes(w, e))
    ensures (LoopEvent(e) <==> LoopEnabled(w, e)) && (LoopEnabled(w, e) ==> Apply(w, e) == LoopDoes(w, e))
    ensures (OpeningEvent(e) <==> OpeningEnabled(w, e)) && (OpeningEnabled(w, e) ==> Apply(w, e) == OpeningDoes(w, e))
    ensures (RecoveryEvent(e) <==> RecoveryEnabled(w, e))
      && (RecoveryEnabled(w, e) ==> Apply(w, e) == RecoveryDoes(w, e))
    ensures (LinkEvent(e) <==> LinkEnabled(w, e)) && (LinkEnabled(w, e) ==> Apply(w, e) == LinkDoes(w, e))
    ensures (BackgroundEvent(e) <==> BackgroundEnabled(w, e))
      && (BackgroundEnabled(w, e) ==> Apply(w, e) == BackgroundDoes(w, e))
  {
    hide UserDoes, LoopDoes, OpeningDoes, RecoveryDoes, LinkDoes, BackgroundDoes;
    GuardsNameTheirGroup(w, e);
    GroupsApart(e);
    hide UserEnabled, LoopEnabled, OpeningEnabled, RecoveryEnabled, LinkEnabled, BackgroundEnabled, UserEvent,
      LoopEvent, OpeningEvent, RecoveryEvent, LinkEvent, BackgroundEvent;
  }

  lemma GuardsNameTheirGroup(w: World, e: Event)
    ensures UserEnabled(w, e) ==> UserEvent(e)
    ensures LoopEnabled(w, e) ==> LoopEvent(e)
    ensures OpeningEnabled(w, e) ==> OpeningEvent(e)
    ensures RecoveryEnabled(w, e) ==> RecoveryEvent(e)
    ensures LinkEnabled(w, e) ==> LinkEvent(e)
    ensures BackgroundEnabled(w, e) ==> BackgroundEvent(e)
  {
    hide FlowAwaitedAt, RadioAnswers, CloserMay, CreationMay, FlowMay, MaybeFaulty, Faulty, Lists;
  }

  lemma GroupsApart(e: Event)
    ensures UserEvent(e) ==>
      !LoopEvent(e) && !OpeningEvent(e) && !RecoveryEvent(e) && !LinkEvent(e) && !BackgroundEvent(e)
    ensures LoopEvent(e) ==> !OpeningEvent(e) && !RecoveryEvent(e) && !LinkEvent(e) && !BackgroundEvent(e)
    ensures OpeningEvent(e) ==> !RecoveryEvent(e) && !LinkEvent(e) && !BackgroundEvent(e)
    ensures RecoveryEvent(e) ==> !LinkEvent(e) && !BackgroundEvent(e)
    ensures LinkEvent(e) ==> !BackgroundEvent(e)
  {
  }
}
