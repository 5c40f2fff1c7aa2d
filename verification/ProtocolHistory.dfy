/** What whole runs remember: preparation budgets, what the device sets mean, and why a
    strategy changes. A history of marks is read off a run, event by event. */
module ProtocolHistory {
  import opened Wrappers
  import opened Records
  import opened Protocol
  import opened ProtocolCore
  import opened ProtocolFlows
  import opened ProtocolFrames
  import opened ProtocolSteps
  import opened ProtocolRuns

  // ---------------------------------------------------------------- the history

  datatype Kind = PreparationStarted | PreparationSucceeded | PlaybackProtected | ClosedRemotely

  datatype Mark = Mark(kind: Kind, device: DeviceId, attempt: nat)

  /** A preparation starts where an attempt gets past the gate's door. */
  predicate Starts(e: Event, w': World) {
    (e.AttemptBegan? || e.OldFlowAwaited?) && w'.worker.Running? && w'.worker.pc.EnteringRecovery?
  }

  predicate Protects(w: World, e: Event)
    requires w.worker.Running?
  {
    e.GateRan? && w.worker.pc.EnteringRecovery? && HasLivePlayback(w.sessions, w.live) && !w.worker.pc.allow
  }

  predicate Succeeds(w: World, e: Event)
    requires w.worker.Running?
  {
    e.RecoveryEnded? && w.worker.pc.FinishingRecovery? && w.worker.pc.outcome.Succeeded?
  }

  /** The mark the attempt in flight leaves, if any. */
  function AttemptNote(w: World, e: Event, w': World): seq<Mark> {
    if !w.worker.Running? then []
    else if Starts(e, w') then [Mark(PreparationStarted, w.worker.request.device, w.worker.request.attemptId)]
    else if Succeeds(w, e) then [Mark(PreparationSucceeded, w.worker.request.device, w.worker.request.attemptId)]
    else if Protects(w, e) then [Mark(PlaybackProtected, w.worker.request.device, w.worker.request.attemptId)]
    else []
  }

  /** The mark of the step from w to w', if any. */
  function Note(w: World, e: Event, w': World): seq<Mark> {
    if e.ClosedReported? then
      if RemoteClose(w, e.device, e.generation, e.link, e.readsClosed) && !w.bluetooth.inProgress
      then [Mark(ClosedRemotely, e.device, 0)]
      else []
    else AttemptNote(w, e, w')
  }

  function History(ws: seq<World>, es: seq<Event>, i: nat): seq<Mark>
    requires |ws| == |es| + 1 && i < |ws|
  {
    if i == 0 then [] else History(ws, es, i - 1) + Note(ws[i - 1], es[i - 1], ws[i])
  }

  /** How many marks of a kind an attempt left. */
  function Count(h: seq<Mark>, kind: Kind, a: nat): nat {
    if h == [] then 0
    else Count(h[..|h| - 1], kind, a) + (if h[|h| - 1].kind == kind && h[|h| - 1].attempt == a then 1 else 0)
  }

  /** How often an attempt's need for a preparation was lifted. */
  function Released(h: seq<Mark>, a: nat): nat {
    Count(h, PreparationSucceeded, a) + Count(h, PlaybackProtected, a)
  }

  /** The device has an up mark with no down mark after it. */
  predicate Since(h: seq<Mark>, up: Kind, down: Kind, d: DeviceId) {
    exists i :: 0 <= i < |h| && h[i].kind == up && h[i].device == d && NoneAfter(h, i, down, d)
  }

  predicate NoneAfter(h: seq<Mark>, i: nat, down: Kind, d: DeviceId) {
    forall j :: i < j < |h| ==> !(h[j].kind == down && h[j].device == d)
  }

  lemma CountMark(h: seq<Mark>, m: Mark, kind: Kind, a: nat)
    ensures Count(h + [m], kind, a) == Count(h, kind, a) + (if m.kind == kind && m.attempt == a then 1 else 0)
  {
    assert (h + [m])[..|h|] == h;
  }

  lemma SinceMark(h: seq<Mark>, m: Mark, up: Kind, down: Kind, d: DeviceId)
    requires up != down
    ensures
      Since(h + [m], up, down, d) <==>
        (m.device == d && m.kind == up) || (!(m.device == d && m.kind == down) && Since(h, up, down, d))
  {
    if m.device == d && m.kind == up {
      assert (h + [m])[|h|] == m && NoneAfter(h + [m], |h|, down, d);
    } else {
      if Since(h, up, down, d) && !(m.device == d && m.kind == down) {
        StillSince(h, m, up, down, d);
      }
      if Since(h + [m], up, down, d) {
        SinceBefore(h, m, up, down, d);
      }
    }
  }

  lemma StillSince(h: seq<Mark>, m: Mark, up: Kind, down: Kind, d: DeviceId)
    requires Since(h, up, down, d) && !(m.device == d && m.kind == down)
    ensures Since(h + [m], up, down, d)
  {
    var i :| 0 <= i < |h| && h[i].kind == up && h[i].device == d && NoneAfter(h, i, down, d);
    assert (h + [m])[i] == h[i] && NoneAfter(h + [m], i, down, d);
  }

  lemma SinceBefore(h: seq<Mark>, m: Mark, up: Kind, down: Kind, d: DeviceId)
    requires Since(h + [m], up, down, d) && !(m.device == d && m.kind == up)
    ensures Since(h, up, down, d) && !(m.device == d && m.kind == down)
  {
    var g := h + [m];
    var i :| 0 <= i < |g| && g[i].kind == up && g[i].device == d && NoneAfter(g, i, down, d);
    assert g[|h|] == m && i < |h| && g[i] == h[i];
    forall j | i < j < |h| ensures !(h[j].kind == down && h[j].device == d) {
      assert g[j] == h[j];
    }
    assert NoneAfter(h, i, down, d);
  }

  // ---------------------------------------------------------------- the invariant

  ghost predicate SetsTold(w: World, h: seq<Mark>) {
    && (forall d :: d in w.prepared <==> Since(h, PreparationSucceeded, PreparationStarted, d))
    && (forall d :: d in w.deferred <==> Since(h, ClosedRemotely, PreparationSucceeded, d))
  }

  predicate RequestTold(r: Request, h: seq<Mark>) {
    && Count(h, PreparationStarted, r.attemptId) == r.preparationAttempts
    && (r.strategy.Direct? <==> !CallsForPreparation(r) || Released(h, r.attemptId) == 1)
    && (Released(h, r.attemptId) > 0 ==> r.preparationAttempts > 0)
  }

  ghost predicate WithinBudget(h: seq<Mark>, a: nat) {
    Count(h, PreparationStarted, a) <= 2 && Released(h, a) <= 1
  }

  ghost predicate Unused(h: seq<Mark>, a: nat) {
    Count(h, PreparationStarted, a) == 0 && Released(h, a) == 0
  }

  ghost predicate BudgetsTold(w: World, h: seq<Mark>) {
    && (forall i :: 0 <= i < |w.queue| ==> RequestTold(w.queue[i], h))
    && (w.worker.Running? ==> RequestTold(w.worker.request, h))
    && (forall a :: WithinBudget(h, a))
    && (forall a :: a > w.lastAttempt ==> Unused(h, a))
  }

  ghost predicate Told(w: World, h: seq<Mark>) {
    SetsTold(w, h) && BudgetsTold(w, h)
  }

  lemma ToldInitially(w: World)
    requires Initial(w)
    ensures Told(w, [])
  {
  }

  // ---------------------------------------------------------------- steps that leave no mark

  /** Where a live request comes from. */
  predicate Traced(w: World, w': World, y: Request) {
    InQueue(w.queue, y) || (w.worker.Running? && Kept(w.worker.request, y)) || Newest(w, w', y)
  }

  ghost predicate HistoryFrame(w: World, w': World) {
    && w'.lastAttempt >= w.lastAttempt
    && (forall i :: 0 <= i < |w'.queue| ==> Traced(w, w', w'.queue[i]))
    && (w'.worker.Running? ==> Traced(w, w', w'.worker.request))
  }

  lemma TracedTold(w: World, w': World, y: Request, h: seq<Mark>)
    requires BudgetsTold(w, h) && Traced(w, w', y)
    ensures RequestTold(y, h)
  {
    if InQueue(w.queue, y) {
      var j :| 0 <= j < |w.queue| && Kept(w.queue[j], y);
      assert RequestTold(w.queue[j], h);
    } else if Newest(w, w', y) {
      assert Unused(h, y.attemptId);
    }
  }

  lemma FrameTold(w: World, w': World, h: seq<Mark>)
    requires BudgetsTold(w, h) && HistoryFrame(w, w')
    ensures BudgetsTold(w', h)
  {
    forall i | 0 <= i < |w'.queue| ensures RequestTold(w'.queue[i], h) {
      TracedTold(w, w', w'.queue[i], h);
    }
    if w'.worker.Running? {
      TracedTold(w, w', w'.worker.request, h);
    }
  }

  /** A step the history need not mention. */
  ghost predicate Unremarkable(w: World, w': World) {
    HistoryFrame(w, w') && w'.prepared == w.prepared && w'.deferred == w.deferred
  }

  lemma EnqueuedHistory(w: World, w': World, d: DeviceId)
    requires EnqueueFrame(w, w', d, None)
    ensures Unremarkable(w, w')
  {
    if w'.worker.Running? {
      assert Kept(w.worker.request, w.worker.request);
    }
    hide Newest, InQueue;
  }

  /** Queued requests only disappear and the attempt stays the same. */
  lemma ShrinkHistory(w: World, w': World)
    requires w'.lastAttempt >= w.lastAttempt
    requires forall i :: 0 <= i < |w'.queue| ==> w'.queue[i] in w.queue
    requires w'.worker.Running? ==> w'.worker == w.worker || w'.worker.request in w.queue
    ensures HistoryFrame(w, w')
  {
    SameQueueFrom(w, w', 0, None);
    if w'.worker.Running? && w'.worker != w.worker {
      var j :| 0 <= j < |w.queue| && w.queue[j] == w'.worker.request;
      assert Kept(w.queue[j], w'.worker.request);
    }
    hide Newest, InQueue;
  }

  lemma DisconnectHistory(w: World, d: DeviceId)
    ensures Unremarkable(w, Disconnect(w, d))
  {
    var v := Withdrawn(w, d);
    CloseEffect(v, d, None, false);
    forall i | 0 <= i < |v.queue| ensures v.queue[i] in w.queue {
      assert v.queue[i] in v.queue;
    }
    hide CloseSession, HistoryFrame;
    ShrinkHistory(w, w);
    ShrinkHistory(w, Disconnect(w, d));
  }

  lemma ReconnectHistory(w: World, d: DeviceId)
    ensures Unremarkable(w, MaybeReconnect(w, d))
  {
    EnqueueFramed(w, d, true, Automatic, None);
    hide Enqueue, HistoryFrame, EnqueueFrame;
    EnqueuedHistory(w, Enqueue(w, d, true, Automatic, None), d);
    ShrinkHistory(w, w);
  }

  lemma ClickHistory(w: World, e: Event)
    requires e.QuickClicked? || e.ForceClicked?
    ensures Unremarkable(w, UserDoes(w, e))
  {
    hide Enqueue, Unremarkable, EnqueueFrame, Disconnect, Queued;
    var mode, hasSnapshot := if e.QuickClicked? then Quick else Forced, e.QuickClicked?;
    EnqueueFramed(w, e.device, hasSnapshot, mode, None);
    EnqueuedHistory(w, Enqueue(w, e.device, hasSnapshot, mode, None), e.device);
    DisconnectHistory(w, e.device);
    Unremarked(w);
  }

  /** Touching fields that neither name nor age a request. */
  lemma TouchedHistory(w: World, v: World, w': World)
    requires v == w.(queue := v.queue, pending := v.pending) && |v.queue| == |w.queue|
    requires forall i :: 0 <= i < |v.queue| ==> Kept(w.queue[i], v.queue[i])
    requires Unremarkable(v, w')
    ensures Unremarkable(w, w')
  {
    forall y | Traced(v, w', y) ensures Traced(w, w', y) {
      if InQueue(v.queue, y) {
        var j :| 0 <= j < |v.queue| && Kept(v.queue[j], y);
        assert Kept(w.queue[j], y);
      }
    }
    hide Traced;
  }

  lemma AppearsHistory(w: World, d: DeviceId, newlyPresent: bool)
    ensures Unremarkable(w, DeviceAppears(w, d, newlyPresent))
  {
    var v := w.(queue := ResetNotBefore(w.queue, d));
    hide MaybeReconnect, Unremarkable;
    ReconnectHistory(w, d);
    ReconnectHistory(v, d);
    TouchedHistory(w, v, MaybeReconnect(v, d));
    ShrinkHistory(w, w);
    assert Unremarkable(w, w) by { Unremarked(w); }
  }

  lemma Unremarked(w: World)
    ensures Unremarkable(w, w)
  {
    ShrinkHistory(w, w);
    hide HistoryFrame;
  }

  lemma RememberHistory(w: World, d: DeviceId, discovered: bool)
    ensures Unremarkable(w, RememberOne(w, d, discovered))
  {
    var v := w.(pending := w.pending + {d});
    Unremarked(w);
    Unremarked(v);
    ReconnectHistory(v, d);
    hide MaybeReconnect, Unremarkable;
    TouchedHistory(w, v, MaybeReconnect(v, d));
    TouchedHistory(w, v, v);
  }

  lemma ShutdownHistory(w: World, ids: seq<DeviceId>)
    ensures Unremarkable(w, BeginShutdown(w, ids))
  {
    CloseAllEffect(Halted(w), ids);
    hide CloseAll, HistoryFrame;
    ShrinkHistory(w, w);
    ShrinkHistory(w, BeginShutdown(w, ids));
  }

  lemma UserHistory(w: World, e: Event)
    requires UserEvent(e) && !e.ClosedReported?
    ensures Unremarkable(w, UserDoes(w, e))
  {
    hide Unremarkable, ClickQuick, ClickForce, DeviceAppears, RememberOne, BeginShutdown, Queued;
    if e.QuickClicked? || e.ForceClicked? {
      ClickHistory(w, e);
    } else if e.Appeared? {
      AppearsHistory(w, e.device, e.newlyPresent);
    } else if e.Remembered? {
      RememberHistory(w, e.device, e.discovered);
    } else if e.ShutdownBegan? {
      ShutdownHistory(w, e.ids);
    } else {
      RestHistory(w, UserDoes(w, e));
    }
  }

  lemma RestHistory(w: World, w': World)
    requires RestFrame(w, w')
    ensures Unremarkable(w, w')
  {
    hide HistoryFrame;
    ShrinkHistory(w, w');
  }

  lemma HeadHistory(w: World, now: nat)
    requires w.worker.Head?
    ensures Unremarkable(w, WorkerHead(w, now))
  {
    HeadFramed(w, now);
    hide WorkerHead, HistoryFrame;
    ShrinkHistory(w, WorkerHead(w, now));
  }

  lemma DoneHistory(w: World, w': World, now: nat)
    requires w.worker.Running? && DoneFrame(w, w', now)
    ensures Unremarkable(w, w')
  {
    var r := w.worker.request;
    assert Kept(r, RetryRequest(r, now));
    forall i | 0 <= i < |w'.queue| ensures Traced(w, w', w'.queue[i]) {
      if i < |w.queue| {
        assert Kept(w.queue[i], w'.queue[i]);
      }
    }
  }

  lemma CalmHistory(w: World, w': World)
    requires w.worker.Running? && CalmFrame(w, w')
    ensures Unremarkable(w, w')
  {
    forall i | 0 <= i < |w'.queue| ensures Traced(w, w', w'.queue[i]) {
      assert Kept(w.queue[i], w'.queue[i]);
    }
    assert Kept(w.worker.request, w'.worker.request);
  }

  // ---------------------------------------------------------------- steps that leave a mark

  /** A preparation begins: one more try for the device, which no longer counts as prepared. */
  predicate Begins(w: World, w': World)
    requires w.worker.Running?
  {
    var r := w.worker.request;
    && w'.queue == w.queue && w'.lastAttempt == w.lastAttempt && w'.deferred == w.deferred && w'.worker.Running?
    && (w'.worker.pc.EnteringRecovery? ==>
          && r.strategy.RestartBluetooth? && w'.prepared == w.prepared - {r.device}
          && w'.worker.request == r.(preparationAttempts := r.preparationAttempts + 1))
    && (!w'.worker.pc.EnteringRecovery? ==> w'.prepared == w.prepared && w'.worker.request == r)
  }

  lemma PreparationEffect(w: World, v: World)
    requires w.worker.Running? && v == w.(sessions := v.sessions, slots := v.slots, flowTasks := v.flowTasks)
    ensures Begins(w, BeginPreparation(v, w.worker.request))
  {
    var r := w.worker.request;
    if r.strategy.Direct? {
      assert BeginPreparation(v, r) == At(v, r, AfterRecovery(NotRequired));
    } else {
      var r' := r.(preparationAttempts := r.preparationAttempts + 1);
      assert BeginPreparation(v, r).worker.request == r' && BeginPreparation(v, r).worker.pc.EnteringRecovery?;
    }
  }

  lemma StraightEffect(w: World, pc': Pc)
    requires w.worker.Running? && !pc'.EnteringRecovery?
    ensures Begins(w, At(w, w.worker.request, pc'))
      && Begins(w, At(Emplaced(w, w.worker.request), w.worker.request, pc'))
  {
  }

  lemma AttemptBeginsEffect(w: World)
    requires w.worker.Running? && w.worker.pc.Popped?
    ensures Begins(w, AttemptBegins(w))
  {
    var r := w.worker.request;
    PreparationEffect(w, Emplaced(w, r));
    AttemptBeginsCases(w);
    StraightEffect(w, Returned(Cancelled));
    StraightEffect(w, Returned(DeviceUnavailable));
    if r.device in w.flowTasks {
      StraightEffect(w, WaitingOldFlow(w.flowTasks[r.device]));
    }
    hide AttemptBegins, BeginPreparation, Begins, Emplaced, At;
  }

  lemma OldFlowEffect(w: World)
    requires w.worker.Running? && w.worker.pc.WaitingOldFlow?
    ensures Begins(w, OldFlowFinished(w))
  {
    PreparationEffect(w, w.(flowTasks := w.flowTasks - {w.worker.request.device}));
    hide BeginPreparation, IsCurrent;
  }

  /** A preparation ends, or the gate lets the attempt through or into a recovery. */
  predicate Ends(w: World, w': World, protects: bool, succeeds: bool)
    requires w.worker.Running?
  {
    var r := w.worker.request;
    && w'.queue == w.queue && w'.lastAttempt == w.lastAttempt && w'.worker.Running?
    && w'.prepared == (if succeeds then w.prepared + {r.device} else w.prepared)
    && w'.deferred == (if succeeds then w.deferred - {r.device} else w.deferred)
    && w'.worker.request == r.(preparationResult := w'.worker.request.preparationResult,
                               strategy := w'.worker.request.strategy)
    && (if protects || succeeds then w'.worker.request.strategy.Direct? else w'.worker.request.strategy == r.strategy)
  }

  lemma GateEnds(w: World)
    requires w.worker.Running? && w.worker.pc.EnteringRecovery?
    ensures Ends(w, RecoveryGate(w), HasLivePlayback(w.sessions, w.live) && !w.worker.pc.allow, false)
  {
    GateEffect(w);
    GateAnswer(w);
    hide RecoveryGate, HasLivePlayback;
  }

  lemma PreparationEnded(w: World, r: Request, outcome: Recovery)
    ensures
      var worker' := PreparationEnds(w, r, outcome).worker;
      && worker'.Running?
      && worker'.request == r.(preparationResult := worker'.request.preparationResult,
                               strategy := worker'.request.strategy)
      && worker'.request.strategy == if outcome.Ready() then Direct else r.strategy
  {
  }

  lemma GateAnswer(w: World)
    requires w.worker.Running? && w.worker.pc.EnteringRecovery?
    ensures
      var r := w.worker.request;
      var worker' := RecoveryGate(w).worker;
      && worker'.Running?
      && worker'.request == r.(preparationResult := worker'.request.preparationResult,
                               strategy := worker'.request.strategy)
      && worker'.request.strategy ==
           if HasLivePlayback(w.sessions, w.live) && !w.worker.pc.allow then Direct else r.strategy
  {
    hide HasLivePlayback, PreparationEnds;
    var v := w.(bluetooth := w.bluetooth.(needed := true));
    if HasLivePlayback(w.sessions, w.live) && !w.worker.pc.allow {
      PreparationEnded(v, w.worker.request, NotRequired);
    } else if w.bluetooth.inProgress {
      assert RecoveryGate(w).worker == Running(w.worker.request, JoiningRecovery);
    } else if w.stopping {
      PreparationEnded(v, w.worker.request, UnexpectedFailure);
    } else {
      assert RecoveryGate(w).worker == Running(w.worker.request, FindingRadio(w.worker.pc.allow));
    }
  }

  lemma FinishEnds(w: World)
    requires w.worker.Running? && w.worker.pc.FinishingRecovery? && BudgetOk(w.worker.request, w.worker.pc)
    ensures Ends(w, RecoveryFinished(w), false, w.worker.pc.outcome.Succeeded?)
  {
  }

  /** What an attempt's budget leans on: its counter, and an id nobody queued shares. */
  predicate Accounted(w: World) {
    w.worker.Running? ==>
      && BudgetOk(w.worker.request, w.worker.pc)
      && w.worker.request.attemptId <= w.lastAttempt
      && forall i :: 0 <= i < |w.queue| ==> w.queue[i].attemptId != w.worker.request.attemptId
  }

  lemma CoreAccounts(w: World)
    requires WorkerOk(w.worker, w.queue, w.sessions, w.generations, w.lastAttempt)
    ensures Accounted(w)
  {
    hide BudgetOk, PresenceOk;
  }

  lemma CoreAccounted(w: World)
    requires Core(w)
    ensures Accounted(w)
  {
    hide QueueOk, SessionsOk, WorkerOk, RadioOk, RunningOk, PendingOk, Accounted;
    CoreAccounts(w);
  }

  /** The set invariants after one more mark. */
  lemma MarkedSets(w: World, w': World, h: seq<Mark>, m: Mark)
    requires SetsTold(w, h)
    requires w'.prepared == (if m.kind.PreparationSucceeded? then w.prepared + {m.device}
                             else if m.kind.PreparationStarted? then w.prepared - {m.device} else w.prepared)
    requires w'.deferred == (if m.kind.ClosedRemotely? then w.deferred + {m.device}
                             else if m.kind.PreparationSucceeded? then w.deferred - {m.device} else w.deferred)
    ensures SetsTold(w', h + [m])
  {
    forall d
      ensures d in w'.prepared <==> Since(h + [m], PreparationSucceeded, PreparationStarted, d)
      ensures d in w'.deferred <==> Since(h + [m], ClosedRemotely, PreparationSucceeded, d)
    {
      SinceMark(h, m, PreparationSucceeded, PreparationStarted, d);
      SinceMark(h, m, ClosedRemotely, PreparationSucceeded, d);
    }
    hide Since;
  }

  /** A mark of the attempt in flight disturbs no other request's budget. */
  lemma MarkedBudgets(w: World, w': World, h: seq<Mark>, m: Mark)
    requires Accounted(w) && BudgetsTold(w, h) && w.worker.Running? && m.attempt == w.worker.request.attemptId
    requires !m.kind.ClosedRemotely?
    requires w'.queue == w.queue && w'.lastAttempt == w.lastAttempt && w'.worker.Running?
    requires RequestTold(w'.worker.request, h + [m]) && WithinBudget(h + [m], m.attempt)
    ensures BudgetsTold(w', h + [m])
  {
    forall a
      ensures Count(h + [m], PreparationStarted, a) ==
        Count(h, PreparationStarted, a) + (if m.kind.PreparationStarted? && m.attempt == a then 1 else 0)
      ensures Released(h + [m], a) == Released(h, a) + (if !m.kind.PreparationStarted? && m.attempt == a then 1 else 0)
    {
      CountMark(h, m, PreparationStarted, a);
      CountMark(h, m, PreparationSucceeded, a);
      CountMark(h, m, PlaybackProtected, a);
    }
    hide BudgetOk, Count, Released;
    forall i | 0 <= i < |w'.queue| ensures RequestTold(w'.queue[i], h + [m]) {
      assert w.queue[i].attemptId != m.attempt;
    }
    forall a ensures WithinBudget(h + [m], a) {
      assert WithinBudget(h, a);
    }
    forall a | a > w'.lastAttempt ensures Unused(h + [m], a) {
      assert Unused(h, a);
    }
  }

  /** A remote close is no attempt's mark. */
  lemma ClosedBudgets(w: World, w': World, h: seq<Mark>, m: Mark)
    requires BudgetsTold(w, h) && m.kind.ClosedRemotely?
    requires w'.queue == w.queue && w'.lastAttempt == w.lastAttempt && w'.worker == w.worker
    ensures BudgetsTold(w', h + [m])
  {
    forall a
      ensures Count(h + [m], PreparationStarted, a) == Count(h, PreparationStarted, a)
      ensures Released(h + [m], a) == Released(h, a)
    {
      CountMark(h, m, PreparationStarted, a);
      CountMark(h, m, PreparationSucceeded, a);
      CountMark(h, m, PlaybackProtected, a);
    }
    hide Count, Released;
    forall a ensures WithinBudget(h + [m], a) {
      assert WithinBudget(h, a);
    }
    forall a | a > w'.lastAttempt ensures Unused(h + [m], a) {
      assert Unused(h, a);
    }
  }

  /** The first or second preparation of an attempt begins. */
  lemma StartedTold(w: World, w': World, h: seq<Mark>, m: Mark)
    requires Accounted(w) && BudgetsTold(w, h) && w.worker.Running?
    requires w.worker.pc.Popped? || w.worker.pc.WaitingOldFlow?
    requires var r := w.worker.request;
             && r.strategy.RestartBluetooth? && m == Mark(PreparationStarted, r.device, r.attemptId)
             && w'.worker.Running? && w'.worker.request == r.(preparationAttempts := r.preparationAttempts + 1)
    requires w'.queue == w.queue && w'.lastAttempt == w.lastAttempt
    ensures BudgetsTold(w', h + [m])
  {
    var r := w.worker.request;
    CountMark(h, m, PreparationStarted, r.attemptId);
    CountMark(h, m, PreparationSucceeded, r.attemptId);
    CountMark(h, m, PlaybackProtected, r.attemptId);
    assert BudgetOk(r, w.worker.pc) && WithinBudget(h, r.attemptId);
    hide Count, Accounted, BudgetsTold;
    MarkedBudgets(w, w', h, m);
  }

  /** The attempt's need for a preparation is lifted, for the first time. */
  lemma LiftedTold(w: World, w': World, h: seq<Mark>, m: Mark)
    requires Accounted(w) && BudgetsTold(w, h) && w.worker.Running?
    requires w.worker.pc.EnteringRecovery? || w.worker.pc.FinishingRecovery?
    requires m.attempt == w.worker.request.attemptId && (m.kind.PreparationSucceeded? || m.kind.PlaybackProtected?)
    requires var r := w.worker.request;
             && w'.worker.Running? && w'.worker.request.strategy.Direct?
             && w'.worker.request == r.(preparationResult := w'.worker.request.preparationResult, strategy := Direct)
    requires w'.queue == w.queue && w'.lastAttempt == w.lastAttempt
    ensures BudgetsTold(w', h + [m])
  {
    var r := w.worker.request;
    CountMark(h, m, PreparationStarted, r.attemptId);
    CountMark(h, m, PreparationSucceeded, r.attemptId);
    CountMark(h, m, PlaybackProtected, r.attemptId);
    assert BudgetOk(r, w.worker.pc) && WithinBudget(h, r.attemptId) && RequestTold(r, h);
    hide Count, Accounted, BudgetsTold;
    MarkedBudgets(w, w', h, m);
  }

  lemma UnmarkedTold(w: World, w': World, h: seq<Mark>)
    requires BudgetsTold(w, h) && w.worker.Running? && w'.worker.Running? && Kept(w.worker.request, w'.worker.request)
    requires w'.queue == w.queue && w'.lastAttempt == w.lastAttempt
    ensures BudgetsTold(w', h)
  {
    hide Count, Released;
  }

  lemma BeginTold(w: World, e: Event, w': World, h: seq<Mark>)
    requires Accounted(w) && Told(w, h) && w.worker.Running? && (w.worker.pc.Popped? || w.worker.pc.WaitingOldFlow?)
    requires Begins(w, w') && (e.AttemptBegan? || e.OldFlowAwaited?)
    ensures Told(w', h + Note(w, e, w'))
  {
    var r := w.worker.request;
    var m := Mark(PreparationStarted, r.device, r.attemptId);
    assert Note(w, e, w') == if w'.worker.pc.EnteringRecovery? then [m] else [];
    assert h + [] == h;
    hide Accounted, BudgetsTold, SetsTold, Note;
    if w'.worker.pc.EnteringRecovery? {
      StartedTold(w, w', h, m);
      MarkedSets(w, w', h, m);
    } else {
      UnmarkedTold(w, w', h);
      SameSets(w, w', h);
    }
  }

  lemma EndTold(w: World, e: Event, w': World, h: seq<Mark>)
    requires Accounted(w) && Told(w, h) && w.worker.Running?
    requires w.worker.pc.EnteringRecovery? || w.worker.pc.FinishingRecovery?
    requires (e.GateRan? || e.RecoveryEnded?) && Ends(w, w', Protects(w, e), Succeeds(w, e))
    ensures Told(w', h + Note(w, e, w'))
  {
    var r := w.worker.request;
    var protects := Protects(w, e);
    var succeeds := Succeeds(w, e);
    var m := Mark(if succeeds then PreparationSucceeded else PlaybackProtected, r.device, r.attemptId);
    EndNote(w, e, w');
    hide Accounted, BudgetsTold, SetsTold, Note, Protects, Succeeds;
    if protects || succeeds {
      LiftedTold(w, w', h, m);
      MarkedSets(w, w', h, m);
    } else {
      assert h + [] == h;
      assert Kept(r, w'.worker.request);
      UnmarkedTold(w, w', h);
      SameSets(w, w', h);
    }
  }

  lemma EndNote(w: World, e: Event, w': World)
    requires w.worker.Running? && (e.GateRan? || e.RecoveryEnded?)
    ensures
      var r := w.worker.request;
      Note(w, e, w') == if Succeeds(w, e) then [Mark(PreparationSucceeded, r.device, r.attemptId)]
                        else if Protects(w, e) then [Mark(PlaybackProtected, r.device, r.attemptId)] else []
  {
    hide HasLivePlayback;
  }

  lemma SameSets(w: World, w': World, h: seq<Mark>)
    requires SetsTold(w, h) && w'.prepared == w.prepared && w'.deferred == w.deferred
    ensures SetsTold(w', h)
  {
  }

  lemma ClosedTold(w: World, e: Event, h: seq<Mark>)
    requires Told(w, h) && e.ClosedReported?
    ensures Told(UserDoes(w, e), h + Note(w, e, UserDoes(w, e)))
  {
    ClosedReportActsOnItsOwnSession(w, e.device, e.generation, e.link, e.readsClosed);
    var w' := UserDoes(w, e);
    var m := Mark(ClosedRemotely, e.device, 0);
    var marked := RemoteClose(w, e.device, e.generation, e.link, e.readsClosed) && !w.bluetooth.inProgress;
    assert Note(w, e, w') == if marked then [m] else [];
    assert w'.queue == w.queue && w'.worker == w.worker && w'.lastAttempt == w.lastAttempt && w'.prepared == w.prepared;
    assert w'.deferred == if marked then w.deferred + {e.device} else w.deferred;
    assert h + [] == h;
    hide UserDoes, Note, SetsTold, RemoteClose;
    if marked {
      ClosedBudgets(w, w', h, m);
      MarkedSets(w, w', h, m);
    } else {
      SameSets(w, w', h);
    }
  }

  // ---------------------------------------------------------------- every step

  lemma UnremarkableStep(w: World, e: Event)
    requires Core(w) && Enabled(w, e) && !Preparing(e) && !e.ClosedReported?
    ensures Unremarkable(w, Apply(w, e))
  {
    hide Core, Apply, Unremarkable, AttemptFrame, CalmFrame, RestFrame, Preparing, UserEnabled, UserDoes, UserEvent,
      LoopEnabled, LoopDoes, OpeningEnabled, RecoveryEnabled, LinkEnabled, BackgroundEnabled, BackgroundDoes;
    StepByGroup(w, e);
    if UserEnabled(w, e) {
      UserHistory(w, e);
    } else if LoopEnabled(w, e) {
      LoopHistory(w, e);
    } else if BackgroundEnabled(w, e) {
      RestFramed(w, e);
      RestHistory(w, BackgroundDoes(w, e));
    } else {
      AttemptStaysInFrame(w, e);
      CalmHistory(w, Apply(w, e));
    }
  }

  lemma NothingNoted(w: World, e: Event, w': World)
    requires !Preparing(e) && !e.ClosedReported?
    ensures Note(w, e, w') == []
  {
    hide HasLivePlayback;
  }

  lemma LoopHistory(w: World, e: Event)
    requires LoopEnabled(w, e)
    ensures Unremarkable(w, LoopDoes(w, e))
  {
    hide Unremarkable, WorkerHead, WorkerExit, AttemptReturned, AttemptThrew, DoneFrame, RestFrame;
    if e.HeadRan? {
      HeadHistory(w, e.now);
    } else if e.AttemptDone? {
      DoneFramed(w, e);
      DoneHistory(w, LoopDoes(w, e), e.now);
    } else {
      ExitFramed(w);
      RestHistory(w, WorkerExit(w));
    }
  }

  lemma BeginStep(w: World, e: Event)
    requires OpeningEnabled(w, e) && (e.AttemptBegan? || e.OldFlowAwaited?)
    ensures w.worker.Running? && (w.worker.pc.Popped? || w.worker.pc.WaitingOldFlow?)
    ensures Begins(w, OpeningDoes(w, e))
  {
    hide Begins, AttemptBegins, OldFlowFinished, FlowAwaitedAt, MaybeFaulty;
    if e.AttemptBegan? {
      AttemptBeginsEffect(w);
    } else {
      OldFlowEffect(w);
    }
  }

  lemma EndStep(w: World, e: Event)
    requires RecoveryEnabled(w, e) && (e.GateRan? || e.RecoveryEnded?) && Accounted(w)
    ensures w.worker.Running? && (w.worker.pc.EnteringRecovery? || w.worker.pc.FinishingRecovery?)
    ensures Ends(w, RecoveryDoes(w, e), Protects(w, e), Succeeds(w, e))
  {
    hide Ends, RecoveryGate, RecoveryFinished, HasLivePlayback, RadioAnswers, FlowAwaitedAt, BudgetOk;
    if e.GateRan? {
      GateEnds(w);
    } else {
      FinishEnds(w);
    }
  }

  lemma PreparingTold(w: World, e: Event, h: seq<Mark>)
    requires Core(w) && Enabled(w, e) && Preparing(e) && Told(w, h)
    ensures Told(Apply(w, e), h + Note(w, e, Apply(w, e)))
  {
    hide Core, Enabled, Apply, Note, Told, Accounted, OpeningEnabled, OpeningDoes, RecoveryEnabled, RecoveryDoes,
      Begins, Ends, Protects, Succeeds;
    StepByGroup(w, e);
    CoreAccounted(w);
    if e.AttemptBegan? || e.OldFlowAwaited? {
      BeginStep(w, e);
      BeginTold(w, e, Apply(w, e), h);
    } else {
      EndStep(w, e);
      EndTold(w, e, Apply(w, e), h);
    }
  }

  lemma UnremarkableTold(w: World, w': World, h: seq<Mark>)
    requires Told(w, h) && Unremarkable(w, w')
    ensures Told(w', h)
  {
    hide SetsTold, BudgetsTold, HistoryFrame;
    FrameTold(w, w', h);
    SameSets(w, w', h);
  }

  /** Every step keeps the history's account of the sets and the budgets. */
  lemma ToldStep(w: World, e: Event, h: seq<Mark>)
    requires Core(w) && Enabled(w, e) && Told(w, h)
    ensures Told(Apply(w, e), h + Note(w, e, Apply(w, e)))
  {
    hide Core, Enabled, Apply, Note, Told, Unremarkable, Preparing, UserEnabled, UserDoes;
    if Preparing(e) {
      PreparingTold(w, e, h);
    } else if e.ClosedReported? {
      StepByGroup(w, e);
      ClosedTold(w, e, h);
    } else {
      UnremarkableStep(w, e);
      NothingNoted(w, e, Apply(w, e));
      UnremarkableTold(w, Apply(w, e), h);
      assert h + [] == h;
    }
  }

  // ---------------------------------------------------------------- whole runs

  lemma {:induction false} HistoryTells(ws: seq<World>, es: seq<Event>, i: nat)
    requires IsRun(ws, es) && i < |ws|
    ensures Told(ws[i], History(ws, es, i))
  {
    hide *;
    HistoryAt(ws, es, i);
    if i == 0 {
      ToldInitially(ws[0]);
    } else {
      var k := i - 1;
      StepAt(ws, es, k);
      EveryStateIsSafe(ws, es, k);
      HistoryTells(ws, es, k);
      ToldStep(ws[k], es[k], History(ws, es, k));
    }
  }

  lemma HistoryAt(ws: seq<World>, es: seq<Event>, i: nat)
    requires IsRun(ws, es) && i < |ws|
    ensures |ws| == |es| + 1 && Initial(ws[0])
    ensures History(ws, es, i) == if i == 0 then [] else History(ws, es, i - 1) + Note(ws[i - 1], es[i - 1], ws[i])
  {
    hide Initial, Step, Note;
  }

  /** Over its whole retry chain an attempt starts at most two preparations, and is let off
      further preparation at most once, by a success or to protect another stream. */
  lemma PreparationBudget(ws: seq<World>, es: seq<Event>, i: nat, a: nat)
    requires IsRun(ws, es) && i < |ws|
    ensures
      var h := History(ws, es, i);
      && Count(h, PreparationStarted, a) <= 2
      && Count(h, PreparationSucceeded, a) + Count(h, PlaybackProtected, a) <= 1
  {
    HistoryTells(ws, es, i);
    hide IsRun, History, Count;
    assert WithinBudget(History(ws, es, i), a);
  }

  predicate LiveRequest(w: World, r: Request) {
    r in w.queue || (w.worker.Running? && w.worker.request == r)
  }

  /** A live request connects directly exactly when it was allowed to from the start, or its
      own attempt meanwhile prepared successfully or found another stream to protect; and its
      counter is the number of preparations its attempt really started. */
  lemma WhyDirect(ws: seq<World>, es: seq<Event>, i: nat, r: Request)
    requires IsRun(ws, es) && i < |ws| && LiveRequest(ws[i], r)
    ensures
      var h := History(ws, es, i);
      && (r.strategy.Direct? <==>
            || !(r.prepareBeforeConnect || r.mode.Forced? || (r.mode.Quick? && r.recoverAfterRemoteClose))
            || Count(h, PreparationSucceeded, r.attemptId) + Count(h, PlaybackProtected, r.attemptId) == 1)
      && r.preparationAttempts == Count(h, PreparationStarted, r.attemptId)
  {
    HistoryTells(ws, es, i);
    hide IsRun, History, Count;
    assert RequestTold(r, History(ws, es, i));
  }

  /** A device is in preparedDevices iff its latest started preparation succeeded, and in
      deferredBluetoothRecovery iff a remote close outside recovery came after its latest
      successful preparation. */
  lemma DeviceSetsTellHistory(ws: seq<World>, es: seq<Event>, i: nat, d: DeviceId)
    requires IsRun(ws, es) && i < |ws|
    ensures
      var h := History(ws, es, i);
      && (d in ws[i].prepared <==> Since(h, PreparationSucceeded, PreparationStarted, d))
      && (d in ws[i].deferred <==> Since(h, ClosedRemotely, PreparationSucceeded, d))
  {
    HistoryTells(ws, es, i);
    hide IsRun, History;
  }

  /** A request accepted in a step carries a new id no history mentions and a full budget; it is
      to be prepared exactly when the device's latest started preparation did not succeed, or it
      is Forced, or it is Quick and a remote close came after the latest successful one. */
  lemma FreshRequests(ws: seq<World>, es: seq<Event>, i: nat, r: Request)
    requires IsRun(ws, es) && i < |es| && LiveRequest(ws[i + 1], r) && r.attemptId > ws[i].lastAttempt
    ensures
      var h := History(ws, es, i);
      && r.attemptId == ws[i].lastAttempt + 1 && r.preparationAttempts == 0
      && Count(h, PreparationStarted, r.attemptId) == 0 && Released(h, r.attemptId) == 0
      && (r.prepareBeforeConnect <==> !Since(h, PreparationSucceeded, PreparationStarted, r.device))
      && (r.recoverAfterRemoteClose <==> Since(h, ClosedRemotely, PreparationSucceeded, r.device))
      && (r.strategy.RestartBluetooth? <==>
            || !Since(h, PreparationSucceeded, PreparationStarted, r.device)
            || r.mode.Forced?
            || (r.mode.Quick? && Since(h, ClosedRemotely, PreparationSucceeded, r.device)))
  {
    hide *;
    StepAt(ws, es, i);
    RunLength(ws, es);
    HistoryTells(ws, es, i);
    EveryStateIsSafe(ws, es, i);
    FreshIsNewest(ws[i], es[i], r);
    NewestTold(ws[i], ws[i + 1], r, History(ws, es, i));
  }

  lemma NewestTold(w: World, w': World, r: Request, h: seq<Mark>)
    requires Told(w, h) && Newest(w, w', r)
    ensures
      && r.attemptId == w.lastAttempt + 1 && r.preparationAttempts == 0
      && Count(h, PreparationStarted, r.attemptId) == 0 && Released(h, r.attemptId) == 0
      && (r.prepareBeforeConnect <==> !Since(h, PreparationSucceeded, PreparationStarted, r.device))
      && (r.recoverAfterRemoteClose <==> Since(h, ClosedRemotely, PreparationSucceeded, r.device))
      && (r.strategy.RestartBluetooth? <==>
            || !Since(h, PreparationSucceeded, PreparationStarted, r.device)
            || r.mode.Forced?
            || (r.mode.Quick? && Since(h, ClosedRemotely, PreparationSucceeded, r.device)))
  {
    hide Count, Since;
    assert Unused(h, r.attemptId);
  }

  lemma FreshIsNewest(w: World, e: Event, r: Request)
    requires Core(w) && Enabled(w, e)
    requires LiveRequest(Apply(w, e), r) && r.attemptId > w.lastAttempt
    ensures Newest(w, Apply(w, e), r)
  {
    hide Core, Enabled, Apply, HistoryFrame, AttemptFrame, CalmFrame, Preparing;
    OldRequests(w);
    if Preparing(e) {
      PreparingFrame(w, e);
      NothingFresh(w, Apply(w, e), r);
      assert false;
    } else {
      FramedStep(w, e);
      TracedFresh(w, Apply(w, e), r);
    }
  }

  lemma OldRequests(w: World)
    requires Core(w)
    ensures forall j :: 0 <= j < |w.queue| ==> w.queue[j].attemptId <= w.lastAttempt
    ensures w.worker.Running? ==> w.worker.request.attemptId <= w.lastAttempt
  {
  }

  lemma TracedFresh(w: World, w': World, r: Request)
    requires HistoryFrame(w, w') && LiveRequest(w', r) && r.attemptId > w.lastAttempt
    requires forall j :: 0 <= j < |w.queue| ==> w.queue[j].attemptId <= w.lastAttempt
    requires w.worker.Running? ==> w.worker.request.attemptId <= w.lastAttempt
    ensures Newest(w, w', r)
  {
    assert Traced(w, w', r);
  }

  lemma FramedStep(w: World, e: Event)
    requires Core(w) && Enabled(w, e) && !Preparing(e)
    ensures HistoryFrame(w, Apply(w, e))
  {
    hide Core, Enabled, Apply, UserEnabled, UserDoes, HistoryFrame, Preparing;
    if e.ClosedReported? {
      StepByGroup(w, e);
      ClosedHistory(w, e);
    } else {
      UnremarkableStep(w, e);
    }
  }

  lemma ClosedHistory(w: World, e: Event)
    requires e.ClosedReported?
    ensures HistoryFrame(w, UserDoes(w, e))
  {
    ClosedReportActsOnItsOwnSession(w, e.device, e.generation, e.link, e.readsClosed);
    hide LinkClosed, HistoryFrame, RemoteClose;
    ShrinkHistory(w, UserDoes(w, e));
  }

  lemma NothingFresh(w: World, w': World, r: Request)
    requires w.worker.Running? && AttemptFrame(w, w') && LiveRequest(w', r)
    requires forall j :: 0 <= j < |w.queue| ==> w.queue[j].attemptId <= w.lastAttempt
    requires w.worker.request.attemptId <= w.lastAttempt
    ensures r.attemptId <= w.lastAttempt
  {
  }

  /** Segments that begin or end a preparation keep the queue and the identity of the attempt. */
  lemma PreparingFrame(w: World, e: Event)
    requires Core(w) && Enabled(w, e) && Preparing(e)
    ensures w.worker.Running? && AttemptFrame(w, Apply(w, e))
  {
    hide Core, Enabled, Apply, AttemptFrame, CalmFrame;
    AttemptStaysInFrame(w, e);
  }

  // ---------------------------------------------------------------- one attempt over its life

  /** What may happen to an attempt's request between two states. */
  predicate Grows(r: Request, r': Request) {
    && r'.device == r.device && r'.generation == r.generation && r'.attemptId == r.attemptId && r'.mode == r.mode
    && r'.recoverAfterRemoteClose == r.recoverAfterRemoteClose && r'.prepareBeforeConnect == r.prepareBeforeConnect
    && r.preparationAttempts <= r'.preparationAttempts
    && (r.strategy.Direct? ==> r'.strategy.Direct?)
  }

  lemma GrownFrom(w: World, e: Event, r': Request) returns (r: Request)
    requires Core(w) && Enabled(w, e)
    requires LiveRequest(Apply(w, e), r') && r'.attemptId <= w.lastAttempt
    ensures LiveRequest(w, r) && Grows(r, r') && r.attemptId == r'.attemptId
  {
    hide Core, Enabled, Apply, HistoryFrame, Begins, Ends, Protects, Succeeds, Accounted, OpeningEnabled, OpeningDoes,
      RecoveryEnabled, RecoveryDoes, LiveRequest;
    if Preparing(e) {
      StepByGroup(w, e);
      if e.AttemptBegan? || e.OldFlowAwaited? {
        BeginStep(w, e);
        r := GrownInPlace(w, Apply(w, e), r');
      } else {
        CoreAccounted(w);
        EndStep(w, e);
        r := EndedInPlace(w, Apply(w, e), r', Protects(w, e), Succeeds(w, e));
      }
    } else {
      FramedStep(w, e);
      r := GrownFromTrace(w, Apply(w, e), r');
    }
  }

  lemma GrownInPlace(w: World, w': World, r': Request) returns (r: Request)
    requires w.worker.Running? && Begins(w, w') && LiveRequest(w', r')
    ensures LiveRequest(w, r) && Grows(r, r')
  {
    r := if r' in w.queue then r' else w.worker.request;
  }

  lemma EndedInPlace(w: World, w': World, r': Request, protects: bool, succeeds: bool) returns (r: Request)
    requires w.worker.Running? && Ends(w, w', protects, succeeds) && LiveRequest(w', r')
    ensures LiveRequest(w, r) && Grows(r, r')
  {
    r := if r' in w.queue then r' else w.worker.request;
  }

  lemma GrownFromTrace(w: World, w': World, r': Request) returns (r: Request)
    requires HistoryFrame(w, w') && LiveRequest(w', r') && r'.attemptId <= w.lastAttempt
    ensures LiveRequest(w, r) && Grows(r, r')
  {
    assert Traced(w, w', r');
    if InQueue(w.queue, r') {
      var j :| 0 <= j < |w.queue| && Kept(w.queue[j], r');
      r := w.queue[j];
    } else {
      r := w.worker.request;
    }
  }

  lemma AttemptIdsGrow(w: World, e: Event)
    requires Core(w) && Enabled(w, e)
    ensures w.lastAttempt <= Apply(w, e).lastAttempt
  {
    hide Core, Enabled, Apply, Preparing, Traced, SessionsShrink, Stale;
    if Preparing(e) {
      PreparingFrame(w, e);
    } else {
      FramedStep(w, e);
    }
  }

  lemma {:induction false} IdsGrowOverRuns(ws: seq<World>, es: seq<Event>, i: nat, j: nat)
    requires IsRun(ws, es) && i <= j < |ws|
    ensures ws[i].lastAttempt <= ws[j].lastAttempt
    decreases j
  {
    hide *;
    if i < j {
      var k := j - 1;
      RunLength(ws, es);
      IdsGrowOverRuns(ws, es, i, k);
      EveryStateIsSafe(ws, es, k);
      StepAt(ws, es, k);
      AttemptIdsGrow(ws[k], es[k]);
    }
  }

  /** An attempt id once given out always names the same attempt: wherever its request is
      live later, through any number of retries, it already was live before, with the same
      device, generation, mode and flags; its preparation counter never shrinks and its
      strategy never goes back from Direct. */
  lemma {:induction false} AttemptsNeverRegress(ws: seq<World>, es: seq<Event>, i: nat, j: nat, r': Request)
    returns (r: Request)
    requires IsRun(ws, es) && i <= j < |ws|
    requires LiveRequest(ws[j], r') && r'.attemptId <= ws[i].lastAttempt
    ensures LiveRequest(ws[i], r) && Grows(r, r')
    decreases j
  {
    hide *;
    if i == j {
      r := r';
      GrowsNothing(r);
    } else {
      var k := j - 1;
      RunLength(ws, es);
      EveryStateIsSafe(ws, es, k);
      StepAt(ws, es, k);
      IdsGrowOverRuns(ws, es, i, k);
      var q := GrownFrom(ws[k], es[k], r');
      r := AttemptsNeverRegress(ws, es, i, k, q);
      GrowsTwice(r, q, r');
    }
  }

  lemma GrowsNothing(r: Request)
    ensures Grows(r, r)
  {
  }

  lemma GrowsTwice(r: Request, q: Request, r': Request)
    requires Grows(r, q) && Grows(q, r')
    ensures Grows(r, r') && r.attemptId == q.attemptId == r'.attemptId
  {
  }
}
