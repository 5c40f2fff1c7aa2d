/** What one step can touch. Segments of an attempt stay within the attempt's own device, and
    touch nothing once the attempt is stale; enqueueing leaves everyone else alone. AttemptFrame
    and CalmFrame bound the segments of an attempt, EnqueueFrame and QueueFrom what can enter the
    queue, HeadFrame and DoneFrame the two ends of a turn of the queue worker. The theorems about
    whole runs use these frames wherever they can, instead of the bodies of the steps. */
module ProtocolFrames {
  import opened Wrappers
  import opened Records
  import opened Protocol
  import opened ProtocolCore
  import opened ProtocolFlows

  // ---------------------------------------------------------------- one segment of the attempt

  predicate AttemptEvent(e: Event) {
    OpeningEvent(e) || RecoveryEvent(e) || LinkEvent(e)
  }

  predicate Stale(w: World, r: Request) {
    r.generation != Generation(w.generations, r.device)
  }

  predicate SessionsShrink(w: World, w': World) {
    forall x :: x in w'.sessions ==> x in w.sessions && w'.sessions[x] == w.sessions[x]
  }

  /** A segment only touches its own device, and nothing at all once it is stale. */
  predicate AttemptFrame(w: World, w': World)
    requires w.worker.Running?
  {
    && w'.queue == w.queue && w'.generations == w.generations && w'.suppressed == w.suppressed
    && w'.lastAttempt == w.lastAttempt && w'.stopping == w.stopping && w'.deferred <= w.deferred
    && w'.worker.Running? && SameAttempt(w.worker.request, w'.worker.request)
    && (forall x :: x in w'.sessions && x != w.worker.request.device ==>
        x in w.sessions && w'.sessions[x] == w.sessions[x])
    && (w'.desired == w.desired || w'.desired == w.desired + [w.worker.request.device])
    && (w'.worker.pc.Recovering() ==> w.worker.pc.Recovering() || w.worker.pc.EnteringRecovery?)
    && (w.worker.pc.Recovering() ==> SessionsShrink(w, w'))
    && (Stale(w, w.worker.request) ==> w'.sessions == w.sessions && w'.desired == w.desired)
  }

  /** Most segments neither begin nor end a preparation. */
  predicate CalmFrame(w: World, w': World)
    requires w.worker.Running?
  {
    && AttemptFrame(w, w')
    && w'.worker.request == w.worker.request && w'.prepared == w.prepared && w'.deferred == w.deferred
  }

  /** The segments that may begin or end a preparation. */
  predicate Preparing(e: Event) {
    e.AttemptBegan? || e.OldFlowAwaited? || e.GateRan? || e.RecoveryEnded?
  }

  /** The session of the attempt's device carries the current generation, and inside a recovery
      that is the attempt's own. */
  predicate Stamped(w: World) {
    w.worker.Running? && w.worker.request.device in w.sessions ==>
      var s := w.sessions[w.worker.request.device];
      && s.generation == Generation(w.generations, w.worker.request.device)
      && (w.worker.pc.Recovering() ==> s.generation == w.worker.request.generation)
  }

  lemma CoreStamps(w: World)
    requires Core(w)
    ensures Stamped(w)
  {
    hide QueueOk, RadioOk, RunningOk, PendingOk, BudgetOk, ApartFromQueue;
    if w.worker.Running? && w.worker.request.device in w.sessions {
      assert SessionOk(w.worker.request.device, w.sessions[w.worker.request.device], w.generations, w.worker);
    }
  }

  lemma CloseAndReturnFrame(w: World, result: AttemptResult)
    requires Stamped(w) && w.worker.Running?
    ensures CalmFrame(w, CloseAndReturn(w, w.worker.request, result))
  {
    CloseEffect(w, w.worker.request.device, Some(w.worker.request.generation), false);
    hide CloseSession;
  }

  lemma BeginPreparationFrame(w: World, v: World, r: Request)
    requires w.worker.Running? && w.worker.request == r && !Stale(w, r) && !w.worker.pc.Recovering()
    requires v == w.(slots := v.slots, sessions := v.sessions, flowTasks := v.flowTasks)
    requires forall x :: x in v.sessions && x != r.device ==> x in w.sessions && v.sessions[x] == w.sessions[x]
    ensures AttemptFrame(w, BeginPreparation(v, r))
  {
    if !r.strategy.Direct? {
      assert SameAttempt(r, BeginPreparation(v, r).worker.request);
    }
  }

  lemma BeginsFrame(w: World)
    requires w.worker.Running? && w.worker.pc.Popped?
    ensures AttemptFrame(w, AttemptBegins(w))
  {
    var r := w.worker.request;
    AttemptBeginsCases(w);
    hide AttemptBegins, BeginPreparation, SlotBusy, AttemptFrame, CalmFrame, Emplaced;
    AtFrame(w, r, Returned(Cancelled));
    CalmIsAttempt(w, At(w, r, Returned(Cancelled)));
    AtFrame(w, r, Returned(DeviceUnavailable));
    CalmIsAttempt(w, At(w, r, Returned(DeviceUnavailable)));
    if !Stale(w, r) {
      EmplacedFrame(w);
      BeginPreparationFrame(w, Emplaced(w, r), r);
    }
  }

  lemma CalmIsAttempt(w: World, w': World)
    requires w.worker.Running? && CalmFrame(w, w')
    ensures AttemptFrame(w, w')
  {
  }

  lemma EmplacedFrame(w: World)
    requires w.worker.Running? && w.worker.pc.Popped? && !Stale(w, w.worker.request)
    ensures
      var r := w.worker.request;
      var v := Emplaced(w, r);
      && v == w.(slots := v.slots, sessions := v.sessions, flowTasks := v.flowTasks)
      && (forall x :: x in v.sessions && x != r.device ==> x in w.sessions && v.sessions[x] == w.sessions[x])
      && (r.device in w.flowTasks ==> AttemptFrame(w, At(v, r, WaitingOldFlow(w.flowTasks[r.device]))))
  {
  }

  lemma OldFlowFrame(w: World)
    requires Stamped(w) && w.worker.Running? && w.worker.pc.WaitingOldFlow?
    ensures AttemptFrame(w, OldFlowFinished(w))
  {
    hide BeginPreparation;
    var r := w.worker.request;
    if IsCurrent(w, r, None) && !w.stopping {
      BeginPreparationFrame(w, w.(flowTasks := w.flowTasks - {r.device}), r);
    }
  }

  /** A move that relabels the attempt's own current session. */
  lemma OwnFrame(w: World, w': World, link: Option<LinkId>)
    requires Stamped(w) && w.worker.Running? && IsCurrent(w, w.worker.request, link)
    requires w'.queue == w.queue && w'.generations == w.generations && w'.suppressed == w.suppressed
    requires w'.lastAttempt == w.lastAttempt && w'.stopping == w.stopping && w'.deferred == w.deferred
      && w'.prepared == w.prepared
    requires w'.worker.Running? && w'.worker.request == w.worker.request
    requires !w.worker.pc.Recovering() && !w'.worker.pc.Recovering()
    requires w'.desired == w.desired || w'.desired == w.desired + [w.worker.request.device]
    requires var d := w.worker.request.device; d in w'.sessions && w'.sessions == w.sessions[d := w'.sessions[d]]
    ensures CalmFrame(w, w')
  {
  }

  lemma BeginCreationFrame(w: World, fault: Option<AttemptResult>)
    requires Stamped(w) && w.worker.Running? && IsCurrent(w, w.worker.request, None) && !w.worker.pc.Recovering()
    ensures CalmFrame(w, BeginCreation(w, w.worker.request, fault))
  {
    hide Stamped, CalmFrame;
    OwnFrame(w, BeginCreation(w, w.worker.request, fault), None);
  }

  lemma OpeningFrame(w: World, e: Event)
    requires Stamped(w) && OpeningEnabled(w, e)
    ensures AttemptFrame(w, OpeningDoes(w, e))
    ensures !Preparing(e) ==> CalmFrame(w, OpeningDoes(w, e))
  {
    hide Stamped, AttemptBegins, OldFlowFinished, AfterPreparation, LookupEnds, AttemptFrame, CalmFrame, FlowAwaitedAt;
    if e.AttemptBegan? {
      BeginsFrame(w);
    } else if e.OldFlowAwaited? {
      OldFlowFrame(w);
    } else {
      if e.OuterThrew? {
        AtFrame(w, w.worker.request, Threw(e.timedOut));
      } else if e.PreparationChecked? {
        CheckedFrame(w, e.fault);
      } else {
        LookupFrame(w, e.fault);
      }
      CalmIsAttempt(w, OpeningDoes(w, e));
    }
  }

  lemma AtFrame(w: World, r': Request, pc': Pc)
    requires w.worker.Running? && r' == w.worker.request && (pc'.Recovering() ==> w.worker.pc.Recovering())
    ensures CalmFrame(w, At(w, r', pc'))
  {
  }

  lemma CheckedFrame(w: World, fault: Option<AttemptResult>)
    requires Stamped(w) && w.worker.Running? && w.worker.pc.AfterRecovery?
    ensures CalmFrame(w, AfterPreparation(w, fault))
  {
    hide Stamped, CalmFrame, CloseAndReturn, BeginCreation;
    var r := w.worker.request;
    CloseAndReturnFrame(w, Cancelled);
    CloseAndReturnFrame(w, BluetoothRecoveryFailed);
    AtFrame(w, r, LookingUp);
    if IsCurrent(w, r, None) {
      BeginCreationFrame(w, fault);
    }
  }

  lemma LookupFrame(w: World, fault: Option<AttemptResult>)
    requires Stamped(w) && w.worker.Running? && w.worker.pc.LookingUp?
    ensures CalmFrame(w, LookupEnds(w, fault))
  {
    hide Stamped, CalmFrame, CloseAndReturn, BeginCreation;
    CloseAndReturnFrame(w, Cancelled);
    if IsCurrent(w, w.worker.request, None) {
      BeginCreationFrame(w, fault);
    }
  }

  lemma RadioFoundFrame(w: World, ids: seq<DeviceId>, tasks: seq<FlowId>)
    requires Stamped(w) && w.worker.Running? && w.worker.pc.FindingRadio? && w.worker.request.device in w.sessions
    ensures CalmFrame(w, RadioFound(w, ids, tasks))
  {
    CloseAllEffect(w, ids);
    hide CloseAll;
  }

  lemma GateFrame(w: World)
    requires w.worker.Running? && w.worker.pc.EnteringRecovery?
    ensures AttemptFrame(w, RecoveryGate(w))
  {
    GateEffect(w);
    hide RecoveryGate;
  }

  lemma RecoveryFrame(w: World, e: Event)
    requires Stamped(w) && RecoveryEnabled(w, e)
    ensures AttemptFrame(w, RecoveryDoes(w, e))
    ensures !Preparing(e) ==> CalmFrame(w, RecoveryDoes(w, e))
  {
    hide Stamped, RadioFound, RecoveryGate, RecoveryFinished, RadioTransaction.Outcome, CloseAll, Lists, AttemptFrame,
      CalmFrame, FlowAwaitedAt;
    if e.GateRan? {
      GateFrame(w);
    } else if e.RecoveryEnded? {
      FinishedFrame(w);
    } else {
      if e.RadioResolved? {
        RadioFoundFrame(w, e.ids, e.tasks);
      } else {
        AtFrame(w, w.worker.request, RecoveryDoes(w, e).worker.pc);
      }
      CalmIsAttempt(w, RecoveryDoes(w, e));
    }
  }

  lemma FinishedFrame(w: World)
    requires w.worker.Running? && w.worker.pc.FinishingRecovery?
    ensures AttemptFrame(w, RecoveryFinished(w))
  {
    hide RecoveryFinished;
    FinishedEffect(w);
  }

  lemma ClaimFrame(w: World, fault: AttemptResult)
    requires Stamped(w) && w.worker.Running? && w.worker.pc.Creating? && w.worker.pc.creation < |w.creations|
    ensures CalmFrame(w, CreationReady(w, fault))
  {
    hide Stamped, ConnectionCreation.Take, ConnectionCreation.Abandon, Claim, CalmFrame;
    var r := w.worker.request;
    var c := w.worker.pc.creation;
    if !IsCurrent(w, r, None) || w.stopping {
      UpdateFrame(w, c, ConnectionCreation.Abandon(w.creations[c]), Returned(Cancelled));
    } else {
      ClaimedFrame(w, c, ConnectionCreation.Take(w.creations[c]).0, ConnectionCreation.Take(w.creations[c]).1, fault);
    }
  }

  lemma UpdateFrame(w: World, c: CreationId, x: ConnectionCreation.Creation, pc': Pc)
    requires w.worker.Running? && c < |w.creations| && !pc'.Recovering()
    ensures CalmFrame(w, At(UpdateCreation(w, c, x), w.worker.request, pc'))
  {
  }

  lemma ClaimedFrame(w: World, c: CreationId, after: ConnectionCreation.Creation,
                     result: ConnectionCreation.TakeResult, fault: AttemptResult)
    requires Stamped(w) && w.worker.Running? && c < |w.creations| && IsCurrent(w, w.worker.request, None)
    requires !w.worker.pc.Recovering()
    ensures CalmFrame(w, Claim(w, w.worker.request, c, after, result, fault))
  {
    hide Stamped, ConnectionCreation.Abandon, CalmFrame;
    if !result.Taken? {
      UpdateFrame(w, c, ConnectionCreation.Abandon(after), Settling(fault, None));
    } else if result.connection.None? {
      UpdateFrame(w, c, after, Settling(DeviceUnavailable, None));
    } else {
      OwnFrame(w, Claim(w, w.worker.request, c, after, result, fault), None);
    }
  }

  lemma FaultFrame(w: World, fault: AttemptResult)
    requires LinkEnabled(w, InnerThrew(fault))
    ensures CalmFrame(w, AttemptFaults(w, fault))
  {
    hide CalmFrame, ConnectionCreation.Abandon;
    if w.worker.pc.Creating? {
      UpdateFrame(w, w.worker.pc.creation, ConnectionCreation.Abandon(w.creations[w.worker.pc.creation]),
                  Settling(fault, None));
    } else {
      AtFrame(w, w.worker.request, Settling(fault, LinkAt(w.worker.pc)));
    }
  }

  lemma StartedFrame(w: World)
    requires Stamped(w) && w.worker.Running? && w.worker.pc.StartingLink?
    ensures CalmFrame(w, LinkStarted(w))
  {
    hide Stamped, CloseAndReturn, CalmFrame;
    var r := w.worker.request;
    var l := w.worker.pc.link;
    CloseAndReturnFrame(w, Lost(w, r));
    if IsCurrent(w, r, Some(l)) && !w.stopping {
      OwnFrame(w, LinkStarted(w), Some(l));
    }
  }

  lemma OpenFrame(w: World, status: OpenStatus, isOpen: bool)
    requires Stamped(w) && w.worker.Running? && w.worker.pc.OpeningLink?
    ensures CalmFrame(w, OpenReturned(w, status, isOpen))
  {
    hide Stamped, CloseAndReturn, CalmFrame;
    var r := w.worker.request;
    var l := w.worker.pc.link;
    CloseAndReturnFrame(w, Lost(w, r));
    if IsCurrent(w, r, Some(l)) && !w.stopping {
      OpenCurrentFrame(w, status, isOpen);
    }
  }

  lemma OpenCurrentFrame(w: World, status: OpenStatus, isOpen: bool)
    requires Stamped(w) && w.worker.Running? && w.worker.pc.OpeningLink? && !w.stopping
    requires IsCurrent(w, w.worker.request, Some(w.worker.pc.link))
    ensures CalmFrame(w, OpenReturned(w, status, isOpen))
  {
    hide Stamped, CloseAndReturn, CalmFrame;
    if status.OpenSucceeded? {
      OwnFrame(w, OpenReturned(w, status, isOpen), Some(w.worker.pc.link));
    } else {
      var w' := OpenReturned(w, status, isOpen);
      AtFrame(w, w.worker.request, w'.worker.pc);
    }
  }

  lemma WaitedFrame(w: World, isOpen: bool)
    requires Stamped(w) && w.worker.Running? && w.worker.pc.WaitingOpened?
    ensures CalmFrame(w, OpenedWaited(w, isOpen))
  {
    hide Stamped, CloseAndReturn, CalmFrame;
    CloseAndReturnFrame(w, Cancelled);
    AtFrame(w, w.worker.request, Settling(if isOpen then Success else ClosedUnexpectedly, Some(w.worker.pc.link)));
  }

  lemma CommitFrame(w: World, flowStarts: bool)
    requires Stamped(w) && w.worker.Running? && w.worker.pc.Settling?
      && IsCurrent(w, w.worker.request, w.worker.pc.current)
    ensures CalmFrame(w, Commit(w, w.worker.request, flowStarts))
  {
    hide Stamped, CalmFrame;
    CommitEffect(w, w.worker.request, flowStarts);
    hide Commit;
    OwnFrame(w, Commit(w, w.worker.request, flowStarts), w.worker.pc.current);
  }

  lemma NeededFrame(w: World, v: World)
    requires w.worker.Running? && CalmFrame(w, v)
    ensures CalmFrame(w, v.(bluetooth := v.bluetooth.(needed := true)))
  {
  }

  lemma SettledFrame(w: World, stillOpened: bool, flowStarts: bool)
    requires Stamped(w) && w.worker.Running? && w.worker.pc.Settling?
    ensures CalmFrame(w, Settle(w, stillOpened, flowStarts))
  {
    hide Stamped, CloseAndReturn, CalmFrame, Commit;
    var r := w.worker.request;
    var pc := w.worker.pc;
    var result := if pc.result.Success? && !stillOpened then ClosedUnexpectedly else pc.result;
    CloseAndReturnFrame(w, Lost(w, r));
    CloseAndReturnFrame(w, result);
    NeededFrame(w, CloseAndReturn(w, r, result));
    if IsCurrent(w, r, pc.current) {
      CommitFrame(w, flowStarts);
    }
  }

  lemma LinkFrame(w: World, e: Event)
    requires Stamped(w) && LinkEnabled(w, e)
    ensures CalmFrame(w, LinkDoes(w, e))
  {
    hide Stamped, CalmFrame, CreationReady, AttemptFaults, LinkStarted, OpenReturned, OpenedWaited, Settle, Faulty;
    if e.CreationAwaited? {
      ClaimFrame(w, e.error);
    } else if e.InnerThrew? {
      FaultFrame(w, e.error);
    } else if e.StartAwaited? {
      StartedFrame(w);
    } else if e.OpenAwaited? {
      OpenFrame(w, e.status, e.isOpen);
    } else if e.OpenedAwaited? {
      WaitedFrame(w, e.isOpen);
    } else {
      SettledFrame(w, e.stillOpened, e.flowStarts);
    }
  }

  /** An attempt that takes a segment has not ended. */
  lemma NotDone(w: World, e: Event)
    requires AttemptEnabled(w, e)
    ensures w.worker.Running? && !w.worker.pc.Returned? && !w.worker.pc.Threw?
  {
    hide FlowAwaitedAt, MaybeFaulty, Faulty, Lists, CloseAll;
    if OpeningEnabled(w, e) {
      hide RecoveryEnabled, LinkEnabled;
    } else if RecoveryEnabled(w, e) {
      hide OpeningEnabled, LinkEnabled;
    } else {
      hide OpeningEnabled, RecoveryEnabled;
    }
  }

  // ---------------------------------------------------------------- what requests become

  /** The same attempt with the same budget. */
  predicate Kept(x: Request, y: Request) {
    && y.device == x.device && y.generation == x.generation && y.attemptId == x.attemptId
    && y.preparationAttempts == x.preparationAttempts && y.strategy == x.strategy && y.mode == x.mode
    && y.recoverAfterRemoteClose == x.recoverAfterRemoteClose && y.prepareBeforeConnect == x.prepareBeforeConnect
  }

  predicate InQueue(queue: seq<Request>, y: Request) {
    exists j :: 0 <= j < |queue| && Kept(queue[j], y)
  }

  /** A request is to be prepared if its device was not, if it is Forced, or if it is Quick after
      a remote close. */
  predicate CallsForPreparation(r: Request) {
    r.prepareBeforeConnect || r.mode.Forced? || (r.mode.Quick? && r.recoverAfterRemoteClose)
  }

  /** A request accepted just now. */
  predicate Newest(w: World, w': World, y: Request) {
    && w'.lastAttempt == w.lastAttempt + 1 && y.attemptId == w'.lastAttempt
    && y.preparationAttempts == 0 && y.preparationResult.NotRequired?
    && y.recoverAfterRemoteClose == (y.device in w.deferred) && y.prepareBeforeConnect == (y.device !in w.prepared)
    && (y.strategy.RestartBluetooth? <==> CallsForPreparation(y))
  }

  /** Each queued request of w' was queued in w, is new for d, or is the retry pushed for d. */
  predicate QueueFrom(w: World, w': World, d: DeviceId, retry: Option<Request>) {
    && w'.lastAttempt >= w.lastAttempt
    && forall i :: 0 <= i < |w'.queue| ==>
         var y := w'.queue[i];
         InQueue(w.queue, y) || (y.device == d && (Newest(w, w', y) || retry == Some(y)))
  }

  lemma SameQueueFrom(w: World, w': World, d: DeviceId, retry: Option<Request>)
    requires w'.lastAttempt >= w.lastAttempt
    requires forall i :: 0 <= i < |w'.queue| ==> w'.queue[i] in w.queue
    ensures QueueFrom(w, w', d, retry)
  {
    forall i | 0 <= i < |w'.queue| ensures InQueue(w.queue, w'.queue[i]) {
      var j :| 0 <= j < |w.queue| && w.queue[j] == w'.queue[i];
      assert Kept(w.queue[j], w'.queue[i]);
    }
  }

  /** One queue position replaced or one request appended. */
  lemma OneNew(w: World, w': World, d: DeviceId, retry: Option<Request>, k: nat, y: Request)
    requires k <= |w.queue| && w'.queue == Put(w.queue, k, y) && w'.lastAttempt >= w.lastAttempt
    requires (k < |w.queue| && Kept(w.queue[k], y)) || (y.device == d && (Newest(w, w', y) || retry == Some(y)))
    ensures QueueFrom(w, w', d, retry)
  {
    hide Newest;
    forall i | 0 <= i < |w'.queue|
      ensures InQueue(w.queue, w'.queue[i])
        || (w'.queue[i].device == d && (Newest(w, w', w'.queue[i]) || retry == Some(w'.queue[i])))
    {
      if i < |w.queue| {
        assert Kept(w.queue[i], w.queue[i]);
      }
    }
  }

  lemma PlaceQueue(w: World, d: DeviceId, hasSnapshot: bool, mode: Mode, retry: Option<Request>)
    requires retry.Some? ==> retry.value.device == d
    ensures QueueFrom(w, Place(w, d, hasSnapshot, mode, retry), d, retry)
  {
    var w' := Place(w, d, hasSnapshot, mode, retry);
    var v := Unsuppressed(w, d, mode);
    var i := QueueIndex(w.queue, d);
    if i < |w.queue| {
      PromoteInQueue(w, v, i, hasSnapshot, mode, retry);
      TouchInQueue(w, v, i, hasSnapshot, retry);
    } else {
      hide QueueFrom;
      var y := if retry.Some? then retry.value else FreshRequest(v, d, hasSnapshot, mode);
      OneNew(w, w', d, retry, i, y);
    }
  }

  lemma PromoteInQueue(w: World, v: World, i: nat, hasSnapshot: bool, mode: Mode, retry: Option<Request>)
    requires i < |w.queue| && v == w.(suppressed := v.suppressed, pending := v.pending)
    ensures QueueFrom(w, Promote(v, i, hasSnapshot, mode), w.queue[i].device, retry)
  {
    hide QueueFrom;
    var p := Promote(v, i, hasSnapshot, mode);
    OneNew(w, p, w.queue[i].device, retry, i, p.queue[i]);
  }

  lemma TouchInQueue(w: World, v: World, i: nat, hasSnapshot: bool, retry: Option<Request>)
    requires i < |w.queue| && v == w.(suppressed := v.suppressed, pending := v.pending)
    ensures
      var y := w.queue[i].(hasSnapshot := hasSnapshot || w.queue[i].hasSnapshot);
      QueueFrom(w, v.(queue := w.queue[i := y]), w.queue[i].device, retry)
  {
    hide QueueFrom;
    var y := w.queue[i].(hasSnapshot := hasSnapshot || w.queue[i].hasSnapshot);
    OneNew(w, v.(queue := w.queue[i := y]), w.queue[i].device, retry, i, y);
  }

  /** Nobody else's generation or suppression is touched. */
  ghost predicate OthersKept(w: World, w': World, d: DeviceId) {
    && (forall x :: x != d ==> Generation(w'.generations, x) == Generation(w.generations, x))
    && (forall x :: x != d && x in w.suppressed ==> x in w'.suppressed)
  }

  lemma PromoteGenerations(w: World, v: World, i: nat, hasSnapshot: bool, mode: Mode)
    requires i < |w.queue| && OthersKept(w, v, w.queue[i].device) && v.queue == w.queue
    ensures OthersKept(w, Promote(v, i, hasSnapshot, mode), w.queue[i].device)
  {
    hide SelectInitialRecoveryStrategy;
  }

  lemma AppendGenerations(w: World, v: World, r: Request, d: DeviceId)
    requires OthersKept(w, v, d)
    ensures OthersKept(w, Append(v, r), d)
    ensures r.device == d ==> OthersKept(w, Numbered(v, r), d)
  {
  }

  lemma PlaceGenerations(w: World, d: DeviceId, hasSnapshot: bool, mode: Mode, retry: Option<Request>)
    ensures OthersKept(w, Place(w, d, hasSnapshot, mode, retry), d)
  {
    var v := Unsuppressed(w, d, mode);
    PlaceCases(w, v, d, hasSnapshot, mode, retry);
    assert OthersKept(w, v, d);
    var i := QueueIndex(v.queue, d);
    var newest := FreshRequest(v, d, hasSnapshot, mode);
    assert newest.device == d;
    hide Place, QueueIndex, Numbered, Promote, Append, FreshRequest;
    if i < |v.queue| {
      PromoteGenerations(w, v, i, hasSnapshot, mode);
    } else if retry.Some? {
      hide OthersKept;
      AppendGenerations(w, v, retry.value, d);
    } else {
      hide OthersKept;
      AppendGenerations(w, v, newest, d);
      AppendGenerations(w, Numbered(v, newest), newest, d);
    }
  }

  /** What enqueueing for d can do to everyone. */
  ghost predicate EnqueueFrame(w: World, w': World, d: DeviceId, retry: Option<Request>) {
    && QueueFrom(w, w', d, retry)
    && (w'.worker == w.worker || w'.worker.Head?)
    && w'.desired == w.desired && w'.stopping == w.stopping && w'.prepared == w.prepared && w'.deferred == w.deferred
    && (forall x :: x in w'.sessions ==> x in w.sessions && w'.sessions[x] == w.sessions[x])
    && (forall x :: x != d ==> Generation(w'.generations, x) == Generation(w.generations, x))
    && (forall x :: x != d && x in w.suppressed ==> x in w'.suppressed)
  }

  lemma PlaceFramed(w: World, d: DeviceId, hasSnapshot: bool, mode: Mode, retry: Option<Request>)
    requires retry.Some? ==> retry.value.device == d
    ensures EnqueueFrame(w, Place(w, d, hasSnapshot, mode, retry), d, retry)
  {
    PlaceMachinery(w, d, hasSnapshot, mode, retry);
    PlaceQueue(w, d, hasSnapshot, mode, retry);
    PlaceGenerations(w, d, hasSnapshot, mode, retry);
    hide Place, QueueFrom;
  }

  /** A Forced click closes the connected session first. */
  lemma ClosedFirst(w: World, v: World, w': World, d: DeviceId, retry: Option<Request>)
    requires v == w.(sessions := v.sessions, flows := v.flows, flowTasks := v.flowTasks) && SessionsShrink(w, v)
    requires EnqueueFrame(v, w', d, retry)
    ensures EnqueueFrame(w, w', d, retry)
  {
    hide InQueue;
  }

  lemma EnqueueFramed(w: World, d: DeviceId, hasSnapshot: bool, mode: Mode, retry: Option<Request>)
    requires retry.Some? ==> retry.value.device == d
    ensures EnqueueFrame(w, Enqueue(w, d, hasSnapshot, mode, retry), d, retry)
  {
    if Admitted(w, d, mode) {
      CloseEffect(w, d, None, true);
      hide CloseSession, Place, EnqueueFrame;
      var v := if mode.Forced? then CloseSession(w, d, None, true) else w;
      PlaceFramed(v, d, hasSnapshot, mode, retry);
      ClosedFirst(w, v, Place(v, d, hasSnapshot, mode, retry), d, retry);
    } else {
      SameQueueFrom(w, w, d, retry);
    }
  }

  // ---------------------------------------------------------------- a stale attempt at its end

  lemma StaleDone(w: World, e: Event)
    requires Stamped(w) && LoopEnabled(w, e) && e.AttemptDone? && Stale(w, w.worker.request)
    ensures
      var w' := LoopDoes(w, e);
      w' == w.(worker := Head, bluetooth := w'.bluetooth)
  {
    var r := w.worker.request;
    hide CloseSession, FinishAttempt;
    if w.worker.pc.Returned? {
      StaleFinish(w, w.worker.pc.result, e.now);
    } else {
      NothingToClose(w, r.device, Some(r.generation), false);
      StaleFinish(w, ThrownResult(w, r, w.worker.pc.timedOut), e.now);
    }
  }

  lemma StaleFinish(w: World, result: AttemptResult, now: nat)
    requires w.worker.Running? && Stale(w, w.worker.request)
    ensures
      var w' := FinishAttempt(w, w.worker.request, result, now);
      w' == w.(worker := Head, bluetooth := w'.bluetooth)
  {
    hide Enqueue, CanRetryConnection, RetryRequest, Queued;
  }

  lemma NothingToClose(w: World, d: DeviceId, generation: Option<nat>, skip: bool)
    requires !Closes(w, d, generation)
    ensures CloseSession(w, d, generation, skip) == w
  {
  }

  /** A lost session always means a retired generation: once a link was handed over, a
      continuation that finds its session gone reports Cancelled and is never retried. */
  lemma LostMeansCancelled(w: World, link: Option<LinkId>)
    requires WorkerOk(w.worker, w.queue, w.sessions, w.generations, w.lastAttempt)
    requires w.worker.Running? && w.worker.pc.Underway() && link == LinkAt(w.worker.pc)
    requires !IsCurrent(w, w.worker.request, link)
    ensures Lost(w, w.worker.request) == Cancelled
  {
  }

  /** A Closed callback that names the device's own connected session and really reads Closed. */
  predicate RemoteClose(w: World, d: DeviceId, generation: nat, link: LinkId, readsClosed: bool) {
    && !w.stopping && readsClosed && d in w.sessions && w.sessions[d].phase.Connected?
    && w.sessions[d].generation == generation && w.sessions[d].link == Some(link)
  }

  /** Every other Closed callback changes nothing, and this one only removes that one
      session; outside a recovery it also defers recovery and suppresses reconnecting. */
  lemma ClosedReportActsOnItsOwnSession(w: World, d: DeviceId, generation: nat, link: LinkId, readsClosed: bool)
    ensures
      var w' := LinkClosed(w, d, generation, link, readsClosed);
      var outside := if w.bluetooth.inProgress then {} else {d};
      if RemoteClose(w, d, generation, link, readsClosed) then
        && w'.sessions == w.sessions - {d} && w'.queue == w.queue && w'.worker == w.worker && w'.prepared == w.prepared
        && w'.deferred == w.deferred + outside && w'.suppressed == w.suppressed + outside
        && w'.lastAttempt == w.lastAttempt
      else w' == w
  {
    var v := Muted(w, d);
    CloseEffect(v, d, Some(generation), true);
    hide CloseSession;
  }

  // ---------------------------------------------------------------- the worker's loop

  /** The quietest steps touch no request and no session. */
  predicate RestFrame(w: World, w': World) {
    && w'.sessions == w.sessions && w'.queue == w.queue && w'.suppressed == w.suppressed && w'.desired == w.desired
    && w'.generations == w.generations && w'.lastAttempt == w.lastAttempt && w'.prepared == w.prepared
    && w'.deferred == w.deferred && (w'.worker == w.worker || !w'.worker.Running?)
  }

  lemma RestFramed(w: World, e: Event)
    requires BackgroundEnabled(w, e)
    ensures RestFrame(w, BackgroundDoes(w, e))
  {
    hide BackgroundEnabled, BackgroundDoes;
    BackgroundEffect(w, e);
  }

  lemma ExitFramed(w: World)
    ensures RestFrame(w, WorkerExit(w))
  {
    if w.queue != [] && !w.stopping {
      assert WorkerExit(w) == w.(workerRunning := true, worker := Head);
    } else {
      assert WorkerExit(w) == w.(workerRunning := false, worker := Idle);
    }
  }

  /** Taking the next request out of the queue. */
  predicate HeadFrame(w: World, w': World) {
    && w' == w.(queue := w'.queue, worker := w'.worker)
    && (forall i :: 0 <= i < |w'.queue| ==> w'.queue[i] in w.queue)
    && (w'.worker.Running? ==> w'.worker.pc.Popped? && w'.worker.request in w.queue)
  }

  lemma HeadFramed(w: World, now: nat)
    requires w.worker.Head?
    ensures HeadFrame(w, WorkerHead(w, now))
  {
    if w.queue == [] || w.stopping || w.bluetooth.inProgress {
      assert WorkerHead(w, now).queue == w.queue;
    } else {
      var i := NextIndex(w.queue);
      PopFrame(w, i, RemoveAt(w.queue, i));
      hide NextIndex, RemoveAt, HeadFrame;
    }
  }

  lemma PopFrame(w: World, i: nat, rest: seq<Request>)
    requires i < |w.queue| && w.worker.Head? && forall j :: 0 <= j < |rest| ==> rest[j] in w.queue
    ensures HeadFrame(w, w) && HeadFrame(w, w.(queue := rest))
    ensures HeadFrame(w, w.(queue := rest, worker := Running(w.queue[i], Popped)))
  {
    assert w.queue[i] in w.queue;
  }

  /** Back in the loop after an attempt: at most its own retry is queued. */
  ghost predicate DoneFrame(w: World, w': World, now: nat)
    requires w.worker.Running?
  {
    var r := w.worker.request;
    && w'.worker.Head?
    && w'.desired == w.desired && w'.stopping == w.stopping && w'.prepared == w.prepared && w'.deferred == w.deferred
    && w'.lastAttempt == w.lastAttempt && w'.generations == w.generations
    && (forall x :: x in w'.sessions ==> x in w.sessions && w'.sessions[x] == w.sessions[x])
    && (w'.queue == w.queue || (w'.queue == w.queue + [RetryRequest(r, now)] && !Stale(w, r)
                                && !(w.worker.pc.Returned? && w.worker.pc.result.Success?)))
    && (w'.suppressed == w.suppressed || (w'.suppressed == w.suppressed - {r.device} && !Stale(w, r)
                                && !(w.worker.pc.Returned? && w.worker.pc.result.Success?)))
  }

  lemma FinishFramed(w: World, result: AttemptResult, now: nat)
    requires w.worker.Running?
    requires w.worker.pc.Returned? ==> result == w.worker.pc.result
    ensures DoneFrame(w, FinishAttempt(w, w.worker.request, result, now), now)
  {
    var r := w.worker.request;
    var failed := !result.Success? && !result.Cancelled?;
    var v := w.(worker := Head, bluetooth := if failed then w.bluetooth.(needed := true) else w.bluetooth);
    StayDone(w, v, now);
    hide RetryRequest, CanRetryConnection, Enqueue, Queued, DoneFrame;
    if CanRetryConnection(r, result) && !w.stopping && !Stale(w, r) && !Queued(v.queue, r.device)
      && r.device !in v.sessions {
      RetryPlaced(v, r.device, r.mode, RetryRequest(r, now));
      RetryDone(w, v, now);
    }
  }

  lemma StayDone(w: World, v: World, now: nat)
    requires w.worker.Running? && v == w.(worker := Head, bluetooth := v.bluetooth)
    ensures DoneFrame(w, v, now)
  {
  }

  lemma RetryDone(w: World, v: World, now: nat)
    requires w.worker.Running? && v == w.(worker := Head, bluetooth := v.bluetooth) && !Stale(w, w.worker.request)
    requires !(w.worker.pc.Returned? && w.worker.pc.result.Success?)
    ensures
      var r := w.worker.request;
      var w' := Append(Unsuppressed(v, r.device, r.mode), RetryRequest(r, now));
      w'.worker.Head? ==> DoneFrame(w, w', now)
  {
    hide RetryRequest;
  }

  /** A retry for a device that is neither queued nor connected goes to the end. */
  lemma RetryPlaced(w: World, d: DeviceId, mode: Mode, retry: Request)
    requires !Queued(w.queue, d) && d !in w.sessions && w.worker.Head?
    ensures
      var w' := Enqueue(w, d, false, mode, Some(retry));
      w' == w || (w' == Append(Unsuppressed(w, d, mode), retry) && w'.worker.Head?)
  {
    var i := QueueIndex(w.queue, d);
    hide CloseSession, QueueIndex;
    assert CloseSession(w, d, None, true) == w by {
      NothingToClose(w, d, None, true);
    }
  }

  /** A turn's end after an attempt that returned or threw. */
  lemma DoneFramed(w: World, e: Event)
    requires LoopEnabled(w, e) && e.AttemptDone?
    ensures DoneFrame(w, LoopDoes(w, e), e.now)
  {
    hide FinishAttempt, DoneFrame, AttemptThrew;
    if w.worker.pc.Returned? {
      FinishFramed(w, w.worker.pc.result, e.now);
    } else {
      ThrewFramed(w, e.now);
    }
  }

  lemma ThrewFramed(w: World, now: nat)
    requires w.worker.Running? && w.worker.pc.Threw?
    ensures DoneFrame(w, AttemptThrew(w, now), now)
  {
    var r := w.worker.request;
    CloseEffect(w, r.device, Some(r.generation), false);
    var v := CloseSession(w, r.device, Some(r.generation), false);
    hide CloseSession, FinishAttempt, DoneFrame, ThrownResult;
    FinishFramed(v, ThrownResult(w, r, w.worker.pc.timedOut), now);
    ClosedDone(w, v, AttemptThrew(w, now), now);
  }

  lemma ClosedDone(w: World, v: World, w': World, now: nat)
    requires w.worker.Running? && w.worker.pc.Threw?
      && v == w.(sessions := v.sessions, flows := v.flows, flowTasks := v.flowTasks)
    requires SessionsShrink(w, v) && DoneFrame(v, w', now)
    ensures DoneFrame(w, w', now)
  {
    hide RetryRequest;
  }
}
