/** The gate in front of the radio transaction, over whole runs. */
module ProtocolGate {
  // What was true of playback when a transaction starts, and that nothing becomes connected
  // before it ends.

  import opened Wrappers
  import opened Records
  import opened Protocol
  import opened ProtocolCore
  import opened ProtocolFlows
  import opened ProtocolLinks
  import opened ProtocolFrames
  import opened ProtocolSteps
  import opened ProtocolRuns

  // ---------------------------------------------------------------- steps during a recovery

  /** A step of the user, the system or the background leaves the attempt alone and adds no session. */
  predicate Bystander(w: World, w': World) {
    (w'.worker == w.worker || !w'.worker.Running?) && SessionsShrink(w, w')
  }

  lemma ReconnectStandsBy(w: World, d: DeviceId)
    ensures Bystander(w, MaybeReconnect(w, d))
  {
    EnqueueFramed(w, d, true, Automatic, None);
    hide Enqueue, QueueFrom;
  }

  lemma DisconnectStandsBy(w: World, d: DeviceId)
    ensures Bystander(w, Disconnect(w, d))
  {
    var v := Withdrawn(w, d);
    CloseEffect(v, d, None, false);
    hide CloseSession;
  }

  lemma ClickStandsBy(w: World, e: Event)
    requires e.QuickClicked? || e.ForceClicked?
    ensures Bystander(w, UserDoes(w, e))
  {
    EnqueueStandsBy(w, e.device, true, Quick);
    EnqueueStandsBy(w, e.device, false, Forced);
    DisconnectStandsBy(w, e.device);
    hide Enqueue, Disconnect, Bystander;
  }

  lemma EnqueueStandsBy(w: World, d: DeviceId, hasSnapshot: bool, mode: Mode)
    ensures Bystander(w, Enqueue(w, d, hasSnapshot, mode, None))
  {
    EnqueueFramed(w, d, hasSnapshot, mode, None);
    hide Enqueue, QueueFrom;
  }

  lemma AppearsStandsBy(w: World, e: Event)
    requires e.Appeared? || e.Remembered?
    ensures Bystander(w, UserDoes(w, e))
  {
    ReconnectStandsBy(w, e.device);
    ReconnectStandsBy(w.(queue := ResetNotBefore(w.queue, e.device)), e.device);
    ReconnectStandsBy(w.(pending := w.pending + {e.device}), e.device);
    hide MaybeReconnect;
  }

  lemma ClosedStandsBy(w: World, e: Event)
    requires e.ClosedReported? || e.ShutdownBegan?
    ensures Bystander(w, UserDoes(w, e))
  {
    if e.ClosedReported? {
      ClosedReportActsOnItsOwnSession(w, e.device, e.generation, e.link, e.readsClosed);
      hide LinkClosed;
    } else {
      CloseAllEffect(Halted(w), e.ids);
      hide CloseAll;
    }
  }

  lemma RestStandsBy(w: World, w': World)
    requires RestFrame(w, w')
    ensures Bystander(w, w')
  {
  }

  lemma UserStandsBy(w: World, e: Event)
    requires UserEvent(e)
    ensures Bystander(w, UserDoes(w, e))
  {
    hide Bystander, ClickQuick, ClickForce, DeviceAppears, RememberOne, LinkClosed, BeginShutdown;
    if e.QuickClicked? || e.ForceClicked? {
      ClickStandsBy(w, e);
    } else if e.Appeared? || e.Remembered? {
      AppearsStandsBy(w, e);
    } else if e.ClosedReported? || e.ShutdownBegan? {
      ClosedStandsBy(w, e);
    } else {
      RestStandsBy(w, UserDoes(w, e));
    }
  }

  predicate InRecovery(w: World) {
    w.worker.Running? && w.worker.pc.Recovering()
  }

  /** While a recovery goes on, the attempt keeps its request and no session is added or
      relabelled, so in particular none becomes Connected. */
  lemma RecoveryOnlyLosesSessions(w: World, e: Event)
    requires Core(w) && Enabled(w, e) && InRecovery(w)
    ensures SessionsShrink(w, Apply(w, e))
    ensures InRecovery(Apply(w, e)) ==> Apply(w, e).worker.request == w.worker.request
  {
    hide Core, Apply, AttemptFrame, Bystander, RestFrame, InRecovery, UserEnabled, UserDoes, LoopEnabled,
      OpeningEnabled, RecoveryEnabled, RecoveryDoes, LinkEnabled, BackgroundEnabled, BackgroundDoes;
    StepByGroup(w, e);
    RecoveringOnly(w, e);
    if AttemptEnabled(w, e) {
      AttemptStaysInFrame(w, e);
      SegmentLoses(w, e, Apply(w, e));
    } else if UserEnabled(w, e) {
      UserStandsBy(w, e);
      BystanderLoses(w, UserDoes(w, e));
    } else {
      RestFramed(w, e);
      RestStandsBy(w, BackgroundDoes(w, e));
      BystanderLoses(w, BackgroundDoes(w, e));
    }
  }

  lemma BystanderLoses(w: World, w': World)
    requires Bystander(w, w') && InRecovery(w)
    ensures SessionsShrink(w, w') && (InRecovery(w') ==> w'.worker.request == w.worker.request)
  {
    hide SessionsShrink;
  }

  lemma SegmentLoses(w: World, e: Event, w': World)
    requires InRecovery(w) && AttemptFrame(w, w') && (!Preparing(e) ==> CalmFrame(w, w'))
    requires Preparing(e) ==> RecoveryEnabled(w, e) && e.RecoveryEnded? && w' == RecoveryDoes(w, e)
    ensures SessionsShrink(w, w') && (InRecovery(w') ==> w'.worker.request == w.worker.request)
  {
    hide SessionsShrink, Stale;
  }

  /** In a recovery the loop waits, and of the segments that begin or end a preparation only
      the end of the recovery is possible. */
  lemma RecoveringOnly(w: World, e: Event)
    requires InRecovery(w)
    ensures !LoopEnabled(w, e) && !OpeningEnabled(w, e) && (RecoveryEnabled(w, e) ==> !e.GateRan?)
  {
    hide FlowAwaitedAt, RadioAnswers, MaybeFaulty;
  }

  // ---------------------------------------------------------------- passing the gate

  /** The first preparation of a Forced request may interrupt other streams. */
  predicate MayInterrupt(r: Request) {
    r.mode.Forced? && r.preparationAttempts == 1
  }

  /** What the gate lets through. */
  predicate PassesGate(w: World, w': World) {
    && w.worker.Running? && w.worker.pc.EnteringRecovery? && !w.stopping
    && w'.sessions == w.sessions && w'.worker.Running? && w'.worker.request == w.worker.request
    && (MayInterrupt(w.worker.request) || !HasLivePlayback(w.sessions, w.live))
  }

  lemma GatePasses(w: World)
    requires Core(w) && w.worker.Running? && w.worker.pc.EnteringRecovery? && InRecovery(RecoveryGate(w))
    ensures PassesGate(w, RecoveryGate(w))
  {
    assert BudgetOk(w.worker.request, w.worker.pc);
    hide Core, HasLivePlayback;
  }

  lemma SegmentEnters(w: World, e: Event, w': World)
    requires AttemptEnabled(w, e) && AttemptFrame(w, w') && InRecovery(w') && !InRecovery(w)
    ensures e.GateRan?
  {
    hide AttemptEnabled, SessionsShrink;
    NotDone(w, e);
    AtTheGate(w, e);
  }

  lemma AtTheGate(w: World, e: Event)
    requires AttemptEnabled(w, e) && w.worker.Running?
    ensures w.worker.pc.EnteringRecovery? ==> e.GateRan?
  {
    hide FlowAwaitedAt, Lists, CloseAll, MaybeFaulty, Faulty;
    if OpeningEnabled(w, e) {
      hide RecoveryEnabled, LinkEnabled;
    } else if RecoveryEnabled(w, e) {
      hide OpeningEnabled, LinkEnabled;
    } else {
      hide OpeningEnabled, RecoveryEnabled;
    }
  }

  lemma LoopStandsBy(w: World, e: Event)
    requires LoopEnabled(w, e)
    ensures !InRecovery(LoopDoes(w, e))
  {
    hide WorkerHead, AttemptReturned, AttemptThrew;
    if e.HeadRan? {
      HeadFramed(w, e.now);
    } else if e.AttemptDone? {
      DoneFramed(w, e);
    }
  }

  lemma OnlyTheGate(w: World, e: Event)
    requires Core(w) && Enabled(w, e) && InRecovery(Apply(w, e)) && !InRecovery(w)
    ensures e.GateRan?
  {
    hide Core, Apply, AttemptFrame, CalmFrame, Bystander, RestFrame, UserEnabled, UserDoes, LoopEnabled, LoopDoes,
      OpeningEnabled, RecoveryEnabled, LinkEnabled, BackgroundEnabled, BackgroundDoes;
    StepByGroup(w, e);
    if AttemptEnabled(w, e) {
      AttemptStaysInFrame(w, e);
      SegmentEnters(w, e, Apply(w, e));
    } else if UserEnabled(w, e) {
      UserStandsBy(w, e);
      BystanderStays(w, UserDoes(w, e));
    } else if LoopEnabled(w, e) {
      LoopStandsBy(w, e);
    } else {
      RestFramed(w, e);
      RestStandsBy(w, BackgroundDoes(w, e));
      BystanderStays(w, BackgroundDoes(w, e));
    }
  }

  lemma BystanderStays(w: World, w': World)
    requires Bystander(w, w') && InRecovery(w')
    ensures InRecovery(w)
  {
    hide SessionsShrink;
  }

  /** A recovery is entered through the gate only. */
  lemma RecoveryEntersThroughGate(w: World, e: Event)
    requires Core(w) && Enabled(w, e)
    ensures InRecovery(Apply(w, e)) && !InRecovery(w) ==> e.GateRan? && PassesGate(w, Apply(w, e))
  {
    hide *;
    if InRecovery(Apply(w, e)) && !InRecovery(w) {
      OnlyTheGate(w, e);
      EnteredPastGate(w, e);
    }
  }

  lemma EnteredPastGate(w: World, e: Event)
    requires Core(w) && Enabled(w, e) && e.GateRan? && InRecovery(Apply(w, e)) && !InRecovery(w)
    ensures PassesGate(w, Apply(w, e))
  {
    StepByGroup(w, e);
    hide Core, Apply, Enabled, RecoveryGate, PassesGate, InRecovery;
    GatePasses(w);
  }

  // ---------------------------------------------------------------- whole runs

  /** Every established session was the same session when the gate was passed. */
  lemma {:induction false} GateBehind(ws: seq<World>, es: seq<Event>, j: nat) returns (i: nat)
    requires IsRun(ws, es) && j < |ws| && InRecovery(ws[j])
    ensures i < j && es[i].GateRan? && PassesGate(ws[i], ws[i + 1])
    ensures forall k :: i < k <= j ==> InRecovery(ws[k])
    ensures SessionsShrink(ws[i], ws[j]) && ws[i].worker.request == ws[j].worker.request
  {
    hide *;
    BeginsIdle(ws, es);
    var k := j - 1;
    EveryStateIsSafe(ws, es, k);
    StepAt(ws, es, k);
    RecoveryStep(ws[k], es[k]);
    if InRecovery(ws[k]) {
      i := GateBehind(ws, es, k);
      ShrinkTwice(ws[i], ws[k], ws[j]);
    } else {
      i := k;
    }
  }

  /** A recovery goes on, or has just passed the gate. */
  lemma RecoveryStep(w: World, e: Event)
    requires Core(w) && Enabled(w, e) && InRecovery(Apply(w, e))
    ensures SessionsShrink(w, Apply(w, e)) && w.worker.Running? && w.worker.request == Apply(w, e).worker.request
    ensures !InRecovery(w) ==> e.GateRan? && PassesGate(w, Apply(w, e))
  {
    hide *;
    if InRecovery(w) {
      RecoveryOnlyLosesSessions(w, e);
      RecoveryHasAttempt(w);
    } else {
      RecoveryEntersThroughGate(w, e);
      PassedShrinks(w, Apply(w, e));
    }
  }

  lemma BeginsIdle(ws: seq<World>, es: seq<Event>)
    requires IsRun(ws, es)
    ensures |ws| == |es| + 1 && !InRecovery(ws[0])
  {
  }

  lemma RecoveryHasAttempt(w: World)
    requires InRecovery(w)
    ensures w.worker.Running?
  {
  }

  lemma ShrinkTwice(u: World, v: World, w: World)
    requires SessionsShrink(u, v) && SessionsShrink(v, w)
    ensures SessionsShrink(u, w)
  {
  }

  lemma PassedShrinks(w: World, w': World)
    requires PassesGate(w, w')
    ensures SessionsShrink(w, w') && w.worker.Running? && w'.worker.Running? && w.worker.request == w'.worker.request
  {
  }

  /** A radio transaction starts only if no established session's link read anything but
      Closed when its gate was passed, or for the first preparation of a Forced request after
      every established session was revoked; and in between no session was added. */
  lemma TransactionSparesLivePlayback(ws: seq<World>, es: seq<Event>, j: nat) returns (i: nat)
    requires IsRun(ws, es) && j < |es| && es[j].TransactionBegan?
    ensures i < j && es[i].GateRan? && ws[i].worker.Running? && ws[i].worker.pc.EnteringRecovery?
    ensures forall k :: i < k <= j ==> ws[k].bluetooth.inProgress
    ensures SessionsShrink(ws[i], ws[j])
    ensures
      ws[j].worker.Running? &&
      if MayInterrupt(ws[j].worker.request) then NoneConnected(ws[j].sessions)
      else forall d :: d in ws[j].sessions && ws[j].sessions[d].phase.Connected? ==>
             ws[j].sessions[d].link.Some? && ws[j].sessions[d].link.value !in ws[i].live
  {
    hide IsRun, QueueOk, SessionsOk, WorkerOk, RunningOk, PendingOk, Flows, Links, Initial, Apply, HasLivePlayback;
    StepAt(ws, es, j);
    EveryStateIsSafe(ws, es, j);
    BeginsAwaiting(ws[j], es[j]);
    i := GateBehind(ws, es, j);
    forall k | i < k <= j ensures ws[k].bluetooth.inProgress {
      EveryStateIsSafe(ws, es, k);
    }
    hide Enabled;
    if !MayInterrupt(ws[j].worker.request) {
      LinksReadClosed(ws[i], ws[j]);
    }
  }

  lemma BeginsAwaiting(w: World, e: Event)
    requires Core(w) && RecoveryEnabled(w, e) && e.TransactionBegan?
    ensures InRecovery(w)
    ensures MayInterrupt(w.worker.request) ==> NoneConnected(w.sessions)
    ensures forall d :: d in w.sessions && w.sessions[d].phase.Connected? ==> w.sessions[d].link.Some?
  {
    assert BudgetOk(w.worker.request, w.worker.pc);
    forall d | d in w.sessions && w.sessions[d].phase.Connected? ensures w.sessions[d].link.Some? {
      assert SessionOk(d, w.sessions[d], w.generations, w.worker);
    }
    hide Core, BudgetOk;
  }

  lemma LinksReadClosed(gate: World, w: World)
    requires SessionsShrink(gate, w) && !HasLivePlayback(gate.sessions, gate.live)
    requires forall d :: d in w.sessions && w.sessions[d].phase.Connected? ==> w.sessions[d].link.Some?
    ensures forall d :: d in w.sessions && w.sessions[d].phase.Connected? ==>
              w.sessions[d].link.Some? && w.sessions[d].link.value !in gate.live
  {
  }

  /** Attempts never wait for somebody else's recovery, and a recovery answers NotRequired
      only at the gate, to protect a live stream. */
  lemma NeverJoins(ws: seq<World>, es: seq<Event>, i: nat)
    requires IsRun(ws, es) && i < |ws| && ws[i].worker.Running?
    ensures !ws[i].worker.pc.JoiningRecovery?
    ensures ws[i].worker.pc.FinishingRecovery? ==> !ws[i].worker.pc.outcome.NotRequired?
    ensures ws[i].bluetooth.inProgress <==> InRecovery(ws[i])
  {
    hide IsRun, Flows, Links, QueueOk, SessionsOk, PresenceOk, ApartFromQueue;
    EveryStateIsSafe(ws, es, i);
  }
}
