/** What each segment of the application keeps and what its caller may rely on afterwards: the
    joint invariants and the protocol's theorems, said of one step at a time and of one group of
    events at a time. */
module AppSteps {
  import opened Wrappers
  import opened Records
  import opened Protocol
  import opened ProtocolCore
  import opened ProtocolFlows
  import opened ProtocolLinks
  import opened ProtocolFrames
  import opened ProtocolSteps
  import opened ProtocolRuns
  import opened ProtocolPlayback
  import opened ProtocolGate
  import opened ProtocolRequests
  import opened AppAnswers

  /** Every device that was quiet still is. */
  ghost predicate QuietKept(w: World, w': World) {
    forall d :: Quiet(w, d) ==> Quiet(w', d)
  }

  /** What a step other than a click keeps. */
  ghost predicate Kept(w: World, w': World) {
    Safe(w') && QuietKept(w, w')
  }

  lemma StepKeeps(w: World, e: Event)
    requires Safe(w) && Enabled(w, e) && !e.QuickClicked? && !e.ForceClicked?
    ensures Kept(w, Apply(w, e))
  {
    hide Safe, Apply, Enabled, Quiet, Core, Flows, Links, AcceptsClick;
    StepIsSafe(w, e);
    SafeParts(w);
    NoClick(w, e);
    forall d | Quiet(w, d) ensures Quiet(Apply(w, e), d) {
      QuietStep(w, e, d);
    }
  }

  lemma NoClick(w: World, e: Event)
    requires !e.QuickClicked? && !e.ForceClicked?
    ensures forall d :: !AcceptsClick(w, e, d)
  {
  }

  // The same, group by group.

  lemma UserKeeps(w: World, e: Event)
    requires Safe(w) && UserEnabled(w, e) && !e.QuickClicked? && !e.ForceClicked?
    ensures Kept(w, UserDoes(w, e))
  {
    hide Safe, Kept, Apply, UserEnabled, UserDoes, LoopEnabled, LoopDoes, OpeningEnabled, OpeningDoes,
      RecoveryEnabled, RecoveryDoes, LinkEnabled, LinkDoes, BackgroundEnabled, BackgroundDoes;
    StepByGroup(w, e);
    StepKeeps(w, e);
  }

  lemma LoopKeeps(w: World, e: Event)
    requires Safe(w) && LoopEnabled(w, e)
    ensures Kept(w, LoopDoes(w, e))
  {
    hide Safe, Kept, Apply, UserEnabled, UserDoes, LoopEnabled, LoopDoes, OpeningEnabled, OpeningDoes,
      RecoveryEnabled, RecoveryDoes, LinkEnabled, LinkDoes, BackgroundEnabled, BackgroundDoes;
    StepByGroup(w, e);
    StepKeeps(w, e);
  }

  lemma OpeningKeeps(w: World, e: Event)
    requires Safe(w) && OpeningEnabled(w, e)
    ensures Kept(w, OpeningDoes(w, e))
  {
    hide Safe, Kept, Apply, UserEnabled, UserDoes, LoopEnabled, LoopDoes, OpeningEnabled, OpeningDoes,
      RecoveryEnabled, RecoveryDoes, LinkEnabled, LinkDoes, BackgroundEnabled, BackgroundDoes;
    StepByGroup(w, e);
    StepKeeps(w, e);
  }

  lemma RecoveryKeeps(w: World, e: Event)
    requires Safe(w) && RecoveryEnabled(w, e)
    ensures Kept(w, RecoveryDoes(w, e))
  {
    hide Safe, Kept, Apply, UserEnabled, UserDoes, LoopEnabled, LoopDoes, OpeningEnabled, OpeningDoes,
      RecoveryEnabled, RecoveryDoes, LinkEnabled, LinkDoes, BackgroundEnabled, BackgroundDoes;
    StepByGroup(w, e);
    StepKeeps(w, e);
  }

  lemma LinkKeeps(w: World, e: Event)
    requires Safe(w) && LinkEnabled(w, e)
    ensures Kept(w, LinkDoes(w, e))
  {
    hide Safe, Kept, Apply, UserEnabled, UserDoes, LoopEnabled, LoopDoes, OpeningEnabled, OpeningDoes,
      RecoveryEnabled, RecoveryDoes, LinkEnabled, LinkDoes, BackgroundEnabled, BackgroundDoes;
    StepByGroup(w, e);
    StepKeeps(w, e);
  }

  lemma BackgroundKeeps(w: World, e: Event)
    requires Safe(w) && BackgroundEnabled(w, e)
    ensures Kept(w, BackgroundDoes(w, e))
  {
    hide Safe, Kept, Apply, UserEnabled, UserDoes, LoopEnabled, LoopDoes, OpeningEnabled, OpeningDoes,
      RecoveryEnabled, RecoveryDoes, LinkEnabled, LinkDoes, BackgroundEnabled, BackgroundDoes;
    StepByGroup(w, e);
    StepKeeps(w, e);
  }

  // ---------------------------------------------------------------- the user and the system

  lemma DisconnectKeeps(w: World, d: DeviceId)
    requires Safe(w)
    ensures Kept(w, Disconnect(w, d)) && (!w.stopping ==> Quiet(Disconnect(w, d), d))
  {
    hide Core, Flows, Links, Quiet, Orderly, Disconnect;
    DisconnectCore(w, d);
    CoreIsFooting(w);
    DisconnectFlows(w, d);
    DisconnectLinks(w, d);
    CoreIsOrderly(w);
    if w.stopping {
      StoppedStays(w, d);
    } else {
      SilencedByDisconnect(w, d);
      forall x | Quiet(w, x) && x != d ensures Quiet(Disconnect(w, d), x) {
        QuietDisconnect(w, x, d);
      }
    }
  }

  lemma StoppedStays(w: World, d: DeviceId)
    requires w.stopping
    ensures Disconnect(w, d) == w
  {
  }

  /** A report that is not about the device's own connected session changes nothing; one that
      is only takes that session, and outside a recovery leaves the device quiet. */
  predicate ActsOnOwnSession(w: World, w': World, d: DeviceId, generation: nat, link: LinkId, readsClosed: bool) {
    if RemoteClose(w, d, generation, link, readsClosed) then
      w'.sessions == w.sessions - {d} && w'.queue == w.queue && (!w.bluetooth.inProgress ==> Quiet(w', d))
    else w' == w
  }

  lemma ReportActs(w: World, d: DeviceId, generation: nat, link: LinkId, readsClosed: bool)
    requires Core(w)
    ensures ActsOnOwnSession(w, LinkClosed(w, d, generation, link, readsClosed), d, generation, link, readsClosed)
  {
    ClosedReportActsOnItsOwnSession(w, d, generation, link, readsClosed);
    if RemoteClose(w, d, generation, link, readsClosed) && !w.bluetooth.inProgress {
      SilencedByClose(w, d, generation, link);
    }
    hide Core, LinkClosed, Quiet;
  }

  /** A click may only wake the device it is for. */
  ghost predicate OthersQuiet(w: World, w': World, d: DeviceId) {
    forall x :: x != d && Quiet(w, x) ==> Quiet(w', x)
  }

  lemma ClickKeeps(w: World, e: Event)
    requires Safe(w) && (e.QuickClicked? || e.ForceClicked?)
    ensures Safe(UserDoes(w, e)) && OthersQuiet(w, UserDoes(w, e), e.device)
    ensures !AcceptsClick(w, e, e.device) ==> QuietKept(w, UserDoes(w, e))
  {
    hide Quiet, Core, Flows, Links, Orderly, AcceptsClick, UserDoes, Lists;
    UserCore(w, e);
    CoreIsFooting(w);
    UserFlows(w, e);
    UserLinks(w, e);
    CoreIsOrderly(w);
    forall x | Quiet(w, x) && !AcceptsClick(w, e, x) ensures Quiet(UserDoes(w, e), x) {
      QuietUser(w, e, x);
    }
    OnlyItsOwn(w, e);
  }

  lemma OnlyItsOwn(w: World, e: Event)
    requires e.QuickClicked? || e.ForceClicked?
    ensures forall x :: x != e.device ==> !AcceptsClick(w, e, x)
  {
    hide Queued;
  }

  /** A click is served, disconnects what was connected or queued, or changes nothing. */
  ghost predicate ClickTold(w: World, w': World, e: Event) {
    (e.QuickClicked? || e.ForceClicked?) &&
    var d := e.device;
    && (AcceptsClick(w, e, d) ==> ServesClick(w, w', d, if e.QuickClicked? then Quick else Forced))
    && (!AcceptsClick(w, e, d) && !(e.QuickClicked? && (d in w.sessions || Queued(w.queue, d))) ==> w' == w)
  }

  lemma ClickTells(w: World, e: Event)
    requires Safe(w) && (e.QuickClicked? || e.ForceClicked?)
    ensures ClickTold(w, UserDoes(w, e), e)
  {
    hide Core, Flows, Links, Apply, ServesClick, AcceptsClick, Queued, UserDoes;
    ClickEnabled(w, e);
    StepByGroup(w, e);
    if AcceptsClick(w, e, e.device) {
      AcceptedClickIsServed(w, e, e.device);
    } else if !(e.QuickClicked? && (e.device in w.sessions || Queued(w.queue, e.device))) {
      RefusedClickDoesNothing(w, e);
    }
  }

  lemma ClickEnabled(w: World, e: Event)
    requires e.QuickClicked? || e.ForceClicked?
    ensures UserEnabled(w, e) && Enabled(w, e)
  {
    hide LoopEnabled, AttemptEnabled, BackgroundEnabled;
  }

  /** A row that appears resets its device's deferral and may reconnect it; not while the
      application stops or a recovery goes on. */
  predicate AppearsTold(w: World, w': World, d: DeviceId, newlyPresent: bool) {
    if w.stopping || w.bluetooth.inProgress then w' == w
    else ReconnectsOnce(if newlyPresent then w.(queue := ResetNotBefore(w.queue, d)) else w, w', d)
  }

  lemma AppearsTells(w: World, d: DeviceId, newlyPresent: bool)
    ensures AppearsTold(w, DeviceAppears(w, d, newlyPresent), d, newlyPresent)
  {
    hide MaybeReconnect, ReconnectsOnce, ResetNotBefore;
    ReconnectAnswers(if newlyPresent then w.(queue := ResetNotBefore(w.queue, d)) else w, d);
  }

  /** MaybeQueuePendingReconnect on its own, from any of its callers. */
  lemma ReconnectKeeps(w: World, d: DeviceId)
    requires Safe(w)
    ensures Kept(w, MaybeReconnect(w, d))
  {
    hide Core, Flows, Links, Quiet, Orderly, MaybeReconnect;
    MaybeReconnectCore(w, d);
    CoreIsFooting(w);
    MaybeReconnectFlows(w, d);
    MaybeReconnectLinks(w, d);
    CoreIsOrderly(w);
    forall x | Quiet(w, x) ensures Quiet(MaybeReconnect(w, d), x) {
      QuietReconnect(w, x, d);
    }
  }

  // ---------------------------------------------------------------- remembered devices

  /** A remembered device waits to be reconnected or is in line; one that is there and may be
      reconnected is in line, and one that is not waits. */
  predicate BackInLine(w: World, d: DeviceId, present: bool) {
    d != NO_DEVICE ==>
      && (d in w.pending || Queued(w.queue, d))
      && (!present ==> d in w.pending)
      && (present && d !in w.sessions && d !in w.suppressed && !w.bluetooth.inProgress ==> Queued(w.queue, d))
  }

  /** What a turn for d leaves to the other devices. */
  ghost predicate OthersRecalled(w: World, w': World, d: DeviceId) {
    && w'.sessions == w.sessions && w'.suppressed == w.suppressed && w'.bluetooth == w.bluetooth
    && (forall x :: x != d && x in w.pending ==> x in w'.pending)
    && (forall x :: Queued(w.queue, x) ==> Queued(w'.queue, x))
  }

  lemma ReconnectRecalls(w: World, d: DeviceId)
    requires w.reconnectEnabled && !w.stopping && d in w.pending
    ensures BackInLine(MaybeReconnect(w, d), d, true) && OthersRecalled(w, MaybeReconnect(w, d), d)
  {
    var w' := MaybeReconnect(w, d);
    ReconnectAnswers(w, d);
    hide MaybeReconnect, IsNew;
    if Reconnects(w, d) {
      NewIsFor(w, w'.queue[|w.queue|], d, Automatic);
      forall x | Queued(w.queue, x) ensures Queued(w'.queue, x) {
        var i :| 0 <= i < |w.queue| && w.queue[i].device == x;
        assert w'.queue[..|w.queue|][i] == w.queue[i];
      }
    }
  }

  lemma TurnRecalls(w: World, d: DeviceId, present: bool)
    requires w.reconnectEnabled && !w.stopping
    ensures BackInLine(RememberOne(w, d, present), d, present) && OthersRecalled(w, RememberOne(w, d, present), d)
  {
    hide MaybeReconnect, Queued;
    if d != NO_DEVICE && present {
      ReconnectRecalls(w.(pending := w.pending + {d}), d);
    }
  }

  lemma StaysRecalled(w: World, w': World, d: DeviceId, x: DeviceId, present: bool)
    requires OthersRecalled(w, w', d) && BackInLine(w, x, present) && x != d
    ensures BackInLine(w', x, present)
  {
    hide Queued;
  }

  lemma ShutdownStops(w: World, ids: seq<DeviceId>)
    ensures BeginShutdown(w, ids).stopping
      && (!w.stopping ==> BeginShutdown(w, ids).generations == BumpAll(w.generations))
  {
    CloseAllEffect(Halted(w), ids);
    hide CloseAll;
  }

  // ---------------------------------------------------------------- the queue worker

  /** The request a turn takes up is the earliest due one, current, and its device is idle. */
  predicate TakenUp(w: World, r: Request, now: nat) {
    && r in w.queue && r.notBefore <= now && (forall i :: 0 <= i < |w.queue| ==> r.notBefore <= w.queue[i].notBefore)
    && !w.stopping && !w.bluetooth.inProgress && r.device !in w.sessions
    && Generation(w.generations, r.device) == r.generation
  }

  /** A turn starts at most that request, and queues nothing. */
  ghost predicate TakesUp(w: World, w': World, now: nat) {
    && (w'.worker.Running? ==> w'.worker.pc.Popped? && TakenUp(w, w'.worker.request, now))
    && forall r :: r in w'.queue ==> r in w.queue
  }

  lemma HeadTakesUp(w: World, now: nat)
    requires w.worker.Head?
    ensures TakesUp(w, WorkerHead(w, now), now)
  {
    HeadFramed(w, now);
    hide RemoveAt, Generation;
    forall r | r in WorkerHead(w, now).queue ensures r in w.queue {
      var i :| 0 <= i < |WorkerHead(w, now).queue| && WorkerHead(w, now).queue[i] == r;
    }
  }

  lemma HeadTells(w: World, now: nat)
    requires Core(w) && w.worker.Head?
    ensures HeadActs(w, WorkerHead(w, now), now)
  {
    hide QueueOk, SessionsOk, WorkerOk, RadioOk, RunningOk, PendingOk, WorkerHead, HeadActs;
    HeadAnswers(w, now);
  }

  lemma ExitRestarts(w: World)
    requires RunningOk(w.workerRunning, w.worker, w.queue, w.stopping, w.sessions)
    ensures WorkerExit(w).workerRunning <==> WorkerExit(w).queue != []
  {
    if w.queue != [] && !w.stopping {
      assert WorkerExit(w).workerRunning;
    }
  }

  /** After the turn the queue has at most the attempt's own retry more, and a retired attempt
      leaves the queue, the sessions and the remembered devices alone. */
  ghost predicate TurnDone(w: World, w': World, now: nat)
    requires w.worker.Running?
  {
    && (w'.queue == w.queue || w'.queue == w.queue + [RetryRequest(w.worker.request, now)])
    && (Stale(w, w.worker.request) ==> w'.sessions == w.sessions && w'.queue == w.queue && w'.desired == w.desired)
  }

  lemma TurnEnds(w: World, e: Event)
    requires Stamped(w) && LoopEnabled(w, e) && e.AttemptDone?
    ensures TurnDone(w, LoopDoes(w, e), e.now)
  {
    hide Stamped, LoopDoes, RetryRequest;
    DoneFramed(w, e);
    if Stale(w, w.worker.request) {
      StaleDone(w, e);
    }
  }

  /** The queue grows by the attempt's retry exactly if it earned one. */
  predicate TurnAnswered(w: World, w': World, now: nat) {
    TurnOver(w) &&
    var r := w.worker.request;
    EndsTurn(w, w', r, TurnResult(w), EarnsRetry(w) && !(r.mode.Automatic? && r.device in w.suppressed), now)
  }

  lemma TurnTells(w: World, e: Event)
    requires Core(w) && LoopEnabled(w, e) && e.AttemptDone?
    ensures TurnAnswered(w, LoopDoes(w, e), e.now)
  {
    hide Core, Judged, LoopDoes, LoopEnabled, EndsTurn, EarnsRetry;
    CoreJudges(w);
    TurnAnswers(w, e);
  }

  lemma GateTells(w: World)
    requires RadioOk(w.bluetooth, w.worker, w.sessions) && w.worker.Running? && w.worker.pc.EnteringRecovery?
    ensures GatesAs(w, RecoveryGate(w))
  {
    hide RecoveryGate, GatesAs;
    GateAnswersAs(w);
  }

  // ---------------------------------------------------------------- one attempt

  predicate NoCreationLeft(w: World, d: DeviceId) {
    forall c :: 0 <= c < |w.creations| && w.creations[c].device == d ==> w.creations[c].Finished()
  }

  /** An attempt that goes on has its placeholder session, and no earlier creation of the
      device is left; one that does not has left every session alone. */
  predicate Begun(w: World, w': World) {
    w.worker.Running? && w'.worker.Running? &&
    var d := w.worker.request.device;
    if w'.worker.pc.Returned? then w'.sessions == w.sessions
    else d in w'.sessions && w'.sessions[d].link.None? && !w'.sessions[d].phase.Connected? && NoCreationLeft(w', d)
  }

  lemma BeginsBegun(w: World)
    requires SlotsOk(w.slots, w.creations) && w.worker.Running? && w.worker.pc.Popped?
    ensures Begun(w, AttemptBegins(w))
  {
    var r := w.worker.request;
    AttemptBeginsCases(w);
    hide AttemptBegins, BeginPreparation, SlotsOk, SlotBusy, Begun, NoCreationLeft;
    if AttemptBegins(w) == Return(w, r, Cancelled) || AttemptBegins(w) == Return(w, r, DeviceUnavailable) {
    } else {
      BeginPreparationEffect(Emplaced(w, r), r);
      EmplacedBegun(w, AttemptBegins(w));
    }
  }

  lemma EmplacedBegun(w: World, w': World)
    requires w.worker.Running? && NoCreationLeft(w, w.worker.request.device)
    requires w'.worker.Running? && !w'.worker.pc.Returned? && w'.creations == w.creations
    requires w'.sessions == Emplaced(w, w.worker.request).sessions
    ensures Begun(w, w')
  {
  }

  predicate NoFlowLeft(w: World, d: DeviceId) {
    forall f :: 0 <= f < |w.flows| && w.flows[f].device == d ==> w.flows[f].Finished()
  }

  /** Past the wait no flow of the device is unfinished. */
  predicate PastOldFlow(w: World, w': World) {
    w.worker.Running? && w'.worker.Running? && (!w'.worker.pc.Returned? ==> NoFlowLeft(w', w.worker.request.device))
  }

  lemma WaitIsOver(w: World)
    requires w.worker.Running? && w.worker.pc.WaitingOldFlow? && Flows(OldFlowFinished(w))
    ensures PastOldFlow(w, OldFlowFinished(w))
  {
    var d := w.worker.request.device;
    var w' := OldFlowFinished(w);
    if IsCurrent(w, w.worker.request, None) && !w.stopping {
      BeginPreparationEffect(w.(flowTasks := w.flowTasks - {d}), w.worker.request);
      assert ChainsOk(w'.flows, w'.flowTasks);
      hide BeginPreparation, ChainsOk, Flows;
      forall f | 0 <= f < |w'.flows| && w'.flows[f].device == d ensures w'.flows[f].Finished() {
        DeviceFinished(w'.flows, w'.flowTasks, d, f);
      }
    }
  }

  /** A recovery never joins another one, and begins only for a request that may interrupt or
      with nothing playing. */
  predicate PastGate(w: World, w': World) {
    && w.worker.Running? && w'.worker.Running? && !w'.worker.pc.JoiningRecovery? && w'.sessions == w.sessions
    && (w'.bluetooth.inProgress ==>
          && !w.bluetooth.inProgress && !w.stopping && w'.bluetooth.device == w.worker.request.device
          && (MayInterrupt(w.worker.request) || !HasLivePlayback(w.sessions, w.live)))
  }

  lemma GateLets(w: World)
    requires RadioOk(w.bluetooth, w.worker, w.sessions) && w.worker.Running? && w.worker.pc.EnteringRecovery?
    requires BudgetOk(w.worker.request, w.worker.pc)
    ensures PastGate(w, RecoveryGate(w))
  {
    assert !w.bluetooth.inProgress && (w.worker.pc.allow ==> MayInterrupt(w.worker.request));
    GateEffect(w);
    hide RadioOk, BudgetOk, HasLivePlayback, RecoveryGate, MayInterrupt;
    GateAnswers(w);
  }

  lemma GateAnswers(w: World)
    requires w.worker.Running? && w.worker.pc.EnteringRecovery? && !w.bluetooth.inProgress
    ensures
      var w' := RecoveryGate(w);
      && w'.worker.Running? && !w'.worker.pc.JoiningRecovery?
      && (w'.bluetooth.inProgress ==>
            && w'.bluetooth.device == w.worker.request.device && !w.stopping
            && (w.worker.pc.allow || !HasLivePlayback(w.sessions, w.live)))
  {
    hide HasLivePlayback, PreparationEnds;
    var v := w.(bluetooth := w.bluetooth.(needed := true));
    if HasLivePlayback(w.sessions, w.live) && !w.worker.pc.allow {
      EndsEffect(v, w.worker.request, NotRequired);
      AnsweredStage(v, w.worker.request, NotRequired);
    } else if w.stopping {
      EndsEffect(v, w.worker.request, UnexpectedFailure);
      AnsweredStage(v, w.worker.request, UnexpectedFailure);
    }
  }

  /** A recovery that is left lets the others go on, and a request whose preparation failed is
      still to be prepared. */
  predicate RecoveryLeft(w: World, w': World) {
    w.worker.Running? && w.worker.pc.FinishingRecovery? && w'.worker.Running? && !w'.bluetooth.inProgress &&
    var d := w.worker.request.device;
    if w.worker.pc.outcome.Succeeded? then d in w'.prepared && d !in w'.deferred && w'.worker.request.strategy.Direct?
    else w'.prepared == w.prepared && w'.deferred == w.deferred && w'.worker.request.strategy.RestartBluetooth?
  }

  lemma FinishLeaves(w: World)
    requires w.worker.Running? && w.worker.pc.FinishingRecovery? && BudgetOk(w.worker.request, w.worker.pc)
    ensures RecoveryLeft(w, RecoveryFinished(w))
  {
  }

  /** When an attempt starts a creation, its device has no open link in anybody's hands. */
  predicate CreatesAlone(w: World) {
    w.worker.Running? && w.worker.pc.Creating? ==> forall l :: 0 <= l < |w.links| ==>
      !OpenLink(w.links, l, w.worker.request.device)
  }

  lemma NewCreationIsAlone(w: World, d: DeviceId)
    requires Links(w) && d in w.slots && w.slots[d] < |w.creations|
      && w.creations[w.slots[d]] == ConnectionCreation.New(d)
    ensures forall l :: 0 <= l < |w.links| ==> !OpenLink(w.links, l, d)
  {
    assert Potential(w.creations[w.slots[d]]);
    assert NoRetiring(w.flows, d);
    forall l | 0 <= l < |w.links| ensures !OpenLink(w.links, l, d) {
    }
  }

  /** An attempt whose session is gone gives up as cancelled and changes nothing else. */
  ghost predicate GivesUp(w: World, w': World) {
    w.worker.Running? && w' == At(w, w.worker.request, Returned(Cancelled))
  }

  /** The part of the invariant that speaks of the attempt in flight. */
  predicate AttemptOk(w: World) {
    WorkerOk(w.worker, w.queue, w.sessions, w.generations, w.lastAttempt)
  }

  lemma LostGivesUp(w: World, link: Option<LinkId>)
    requires AttemptOk(w) && w.worker.Running? && w.worker.pc.Underway()
    requires link == LinkAt(w.worker.pc) && !IsCurrent(w, w.worker.request, link)
    ensures CloseAndReturn(w, w.worker.request, Cancelled) == At(w, w.worker.request, Returned(Cancelled))
    ensures Lost(w, w.worker.request) == Cancelled
  {
    LostMeansCancelled(w, link);
    assert PresenceOk(w.worker.request, w.worker.pc, w.sessions, w.generations);
    hide AttemptOk, WorkerOk, Lost;
  }

  predicate FreshSlot(w: World) {
    w.worker.Running? && w.worker.pc.Creating? ==>
      var d := w.worker.request.device;
      d in w.slots && w.slots[d] < |w.creations| && w.creations[w.slots[d]] == ConnectionCreation.New(d)
  }

  lemma FreshIsAlone(w: World)
    requires Links(w) && FreshSlot(w)
    ensures CreatesAlone(w)
  {
    hide Links, OpenLink;
    if w.worker.Running? && w.worker.pc.Creating? {
      NewCreationIsAlone(w, w.worker.request.device);
    }
  }

  lemma CreatedIsFresh(w: World, r: Request, fault: Option<AttemptResult>)
    requires r.device in w.sessions
    ensures FreshSlot(BeginCreation(w, r, fault))
  {
  }

  lemma CheckedEffect(w: World, fault: Option<AttemptResult>)
    requires AttemptOk(w) && w.worker.Running? && w.worker.pc.AfterRecovery?
    ensures
      var w' := AfterPreparation(w, fault);
      FreshSlot(w') && (!IsCurrent(w, w.worker.request, None) ==> GivesUp(w, w'))
  {
    hide AttemptOk, CloseSession, BeginCreation, FreshSlot, IsCurrent;
    if IsCurrent(w, w.worker.request, None) {
      AnsweredIsFresh(w, fault);
    } else {
      LostGivesUp(w, None);
      NotCreating(AfterPreparation(w, fault));
    }
  }

  lemma AnsweredIsFresh(w: World, fault: Option<AttemptResult>)
    requires w.worker.Running? && w.worker.pc.AfterRecovery? && IsCurrent(w, w.worker.request, None)
    ensures FreshSlot(AfterPreparation(w, fault))
  {
    hide CloseSession, BeginCreation, FreshSlot;
    var r := w.worker.request;
    var outcome := w.worker.pc.outcome;
    if w.stopping || !outcome.Ready() || !r.hasSnapshot || outcome.Succeeded? {
      NotCreating(AfterPreparation(w, fault));
    } else {
      CreatedIsFresh(w, r, fault);
    }
  }

  lemma NotCreating(w: World)
    requires w.worker.Running? && !w.worker.pc.Creating?
    ensures FreshSlot(w)
  {
  }

  lemma LookedUpEffect(w: World, fault: Option<AttemptResult>)
    requires AttemptOk(w) && w.worker.Running? && w.worker.pc.LookingUp?
    ensures
      var w' := LookupEnds(w, fault);
      FreshSlot(w') && (!IsCurrent(w, w.worker.request, None) ==> GivesUp(w, w'))
  {
    hide AttemptOk, CloseSession, BeginCreation;
    if IsCurrent(w, w.worker.request, None) {
      CreatedIsFresh(w, w.worker.request, fault);
    } else {
      LostGivesUp(w, None);
    }
  }

  /** The link in the device's session is open, and the only open one of the device. */
  predicate OwnsOnlyLink(w: World, d: DeviceId) {
    && d in w.sessions && w.sessions[d].link.Some? && OpenLink(w.links, w.sessions[d].link.value, d)
    && forall l :: 0 <= l < |w.links| && OpenLink(w.links, l, d) ==> l == w.sessions[d].link.value
  }

  lemma SessionOwnsLink(w: World, d: DeviceId)
    requires Links(w) && d in w.sessions && w.sessions[d].link.Some?
    ensures OwnsOnlyLink(w, d)
  {
    assert HoldingsOk(w.sessions, w.flows, w.creations, w.links);
    hide Links, OpenLink;
    forall l | 0 <= l < |w.links| && OpenLink(w.links, l, d) ensures l == w.sessions[d].link.value {
      OneOpenLinkPerDevice(w, d, l, w.sessions[d].link.value);
    }
  }

  /** A claimed connection is the device's only open link. */
  predicate ClaimsOnlyLink(w: World, w': World) {
    w.worker.Running? && w'.worker.Running?
      && (w'.worker.pc.StartingLink? ==> OwnsOnlyLink(w', w.worker.request.device))
  }

  lemma ClaimedIsOnly(w: World, fault: AttemptResult)
    requires w.worker.Running? && w.worker.pc.Creating? && w.worker.pc.creation < |w.creations|
      && Links(CreationReady(w, fault))
    ensures ClaimsOnlyLink(w, CreationReady(w, fault))
  {
    ClaimCases(w, fault);
    hide Links, CreationReady, OwnsOnlyLink;
    if CreationReady(w, fault).worker.pc.StartingLink? {
      SessionOwnsLink(CreationReady(w, fault), w.worker.request.device);
    }
  }

  /** An attempt that has been handed a link has it in its session. */
  predicate HandedOver(w: World, d: DeviceId) {
    w.worker.Running? && (w.worker.pc.StartingLink? ==> d in w.sessions && w.sessions[d].link.Some?)
  }

  lemma ClaimCases(w: World, fault: AttemptResult)
    requires w.worker.Running? && w.worker.pc.Creating? && w.worker.pc.creation < |w.creations|
    ensures HandedOver(CreationReady(w, fault), w.worker.request.device)
  {
    hide ConnectionCreation.Take, ConnectionCreation.Abandon, Claim, HandedOver;
    var r := w.worker.request;
    var c := w.worker.pc.creation;
    if !IsCurrent(w, r, None) || w.stopping {
      NothingHanded(UpdateCreation(w, c, ConnectionCreation.Abandon(w.creations[c])), r, Returned(Cancelled));
    } else {
      ClaimedCases(w, r, c, ConnectionCreation.Take(w.creations[c]).0, ConnectionCreation.Take(w.creations[c]).1,
                   fault);
    }
  }

  lemma NothingHanded(w: World, r: Request, pc: Pc)
    requires !pc.StartingLink?
    ensures HandedOver(At(w, r, pc), r.device)
  {
  }

  lemma ClaimedCases(w: World, r: Request, c: CreationId, after: ConnectionCreation.Creation,
                     result: ConnectionCreation.TakeResult, fault: AttemptResult)
    requires c < |w.creations| && r.device in w.sessions
    ensures HandedOver(Claim(w, r, c, after, result, fault), r.device)
  {
    hide ConnectionCreation.Abandon, UpdateCreation;
    if !result.Taken? {
      NothingHanded(UpdateCreation(w, c, ConnectionCreation.Abandon(after)), r, Settling(fault, None));
    } else if result.connection.None? {
      NothingHanded(UpdateCreation(w, c, after), r, Settling(DeviceUnavailable, None));
    }
  }

  lemma StartLost(w: World)
    requires AttemptOk(w) && w.worker.Running? && w.worker.pc.StartingLink?
    ensures !IsCurrent(w, w.worker.request, Some(w.worker.pc.link)) ==> GivesUp(w, LinkStarted(w))
  {
    hide AttemptOk, CloseAndReturn, Lost;
    if !IsCurrent(w, w.worker.request, Some(w.worker.pc.link)) {
      LostGivesUp(w, Some(w.worker.pc.link));
    }
  }

  lemma OpenLost(w: World, status: OpenStatus, isOpen: bool)
    requires AttemptOk(w) && w.worker.Running? && w.worker.pc.OpeningLink?
    ensures !IsCurrent(w, w.worker.request, Some(w.worker.pc.link)) ==> GivesUp(w, OpenReturned(w, status, isOpen))
  {
    hide AttemptOk, CloseAndReturn, Lost;
    if !IsCurrent(w, w.worker.request, Some(w.worker.pc.link)) {
      LostGivesUp(w, Some(w.worker.pc.link));
    }
  }

  lemma WaitLost(w: World, isOpen: bool)
    requires AttemptOk(w) && w.worker.Running? && w.worker.pc.WaitingOpened?
    ensures !IsCurrent(w, w.worker.request, Some(w.worker.pc.link)) ==> GivesUp(w, OpenedWaited(w, isOpen))
  {
    hide AttemptOk, CloseAndReturn, Lost;
    if !IsCurrent(w, w.worker.request, Some(w.worker.pc.link)) {
      LostGivesUp(w, Some(w.worker.pc.link));
    }
  }

  /** How an attempt can end: a success owns its device's only open link, is connected and
      remembered; anything else leaves the device without a session. */
  ghost predicate Ended(w: World, w': World) {
    w.worker.Running? && w'.worker.Running? && w'.worker.pc.Returned? &&
    var d := w.worker.request.device;
    if w'.worker.pc.result.Success? then
      OwnsOnlyLink(w', d) && w'.sessions[d].phase.Connected? && d in w'.desired && d !in w'.pending
    else d !in w'.sessions
  }

  lemma SettleEnds(w: World, stillOpened: bool, flowStarts: bool)
    requires w.worker.Running? && w.worker.pc.Settling?
    requires Core(Settle(w, stillOpened, flowStarts)) && Links(Settle(w, stillOpened, flowStarts))
    ensures Ended(w, Settle(w, stillOpened, flowStarts))
  {
    hide Core, Links, Settle, OwnsOnlyLink;
    var w' := Settle(w, stillOpened, flowStarts);
    SettleCases(w, stillOpened, flowStarts);
    EndedPresence(w');
    if w'.worker.pc.result.Success? {
      SessionOwnsLink(w', w.worker.request.device);
    }
  }

  lemma SettleCases(w: World, stillOpened: bool, flowStarts: bool)
    requires w.worker.Running? && w.worker.pc.Settling?
    ensures
      var w' := Settle(w, stillOpened, flowStarts);
      var d := w.worker.request.device;
      && w'.worker.Running? && w'.worker.pc.Returned? && w'.worker.request == w.worker.request
      && (w'.worker.pc.result.Success? ==>
            d in w'.sessions && w'.sessions[d].phase.Connected? && d in w'.desired && d !in w'.pending)
  {
    hide CloseSession, Commit;
    var r := w.worker.request;
    if IsCurrent(w, r, w.worker.pc.current) {
      CommitEffect(w, r, flowStarts);
    }
  }

  lemma EndedPresence(w: World)
    requires Core(w) && w.worker.Running? && w.worker.pc.Returned?
    ensures
      var d := w.worker.request.device;
      && (d in w.sessions ==> w.worker.pc.result.Success?)
      && (d in w.sessions && w.sessions[d].phase.Connected? ==> w.sessions[d].link.Some?)
  {
    assert PresenceOk(w.worker.request, w.worker.pc, w.sessions, w.generations);
    if w.worker.request.device in w.sessions {
      assert SessionOk(w.worker.request.device, w.sessions[w.worker.request.device], w.generations, w.worker);
    }
    hide Core;
  }

  // ---------------------------------------------------------------- background workers

  /** The flow is closed, and so is the link it answered for. */
  predicate LinkGone(w: World, f: FlowId) {
    && f < |w.flows| && w.flows[f].closed
    && (w.flows[f].link.Some? ==> w.flows[f].link.value < |w.links| && w.links[w.flows[f].link.value].closed)
  }

  lemma CloserLeaves(w: World, f: FlowId)
    requires f < |w.flows| && !w.flows[f].closed
    requires w.flows[f].link.Some? ==> OpenLink(w.links, w.flows[f].link.value, w.flows[f].device)
    ensures LinkGone(CloserReturns(w, f), f)
  {
  }

  /** No endpoint cycle begins or ends inside the radio transaction. */
  lemma NothingActsInTransaction(w: World, f: FlowId, action: FlowAction)
    requires Flows(w) && f < |w.flows| && FlowMay(w.flows[f], action)
    ensures !(w.worker.Running? && w.worker.pc.InTransaction?)
  {
    if w.worker.Running? && w.worker.pc.InTransaction? {
      NoCycleDuringTransaction(w);
    }
    hide Flows;
  }
}
