/** What becomes of a request once it is in line: no Automatic one waits for a suppressed device, a
    request lives on through every step but the few that end it, and what ended never comes back.
    These are the steps; RequestRuns says it of whole runs. */
module RequestLife {
  import opened Wrappers
  import opened Numbers
  import opened Records
  import opened Protocol
  import opened ProtocolCore
  import opened ProtocolFlows
  import opened ProtocolFrames
  import opened ProtocolSteps
  import opened ProtocolRuns
  import opened ProtocolPlayback
  import opened ProtocolHistory
  import opened ProtocolRequests

  // ---------------------------------------------------------------- suppressed devices wait for nothing Automatic

  predicate NoAutomatic(w: World, r: Request) {
    r.mode.Automatic? ==> r.device !in w.suppressed
  }

  /** No live Automatic request is for a suppressed device, apart from one that was superseded or
      has just succeeded. */
  ghost predicate Unmuted(w: World) {
    && (forall i :: 0 <= i < |w.queue| ==> NoAutomatic(w, w.queue[i]))
    && (w.worker.Running? && !Stale(w, w.worker.request) && !(w.worker.pc.Returned? && w.worker.pc.result.Success?) ==>
          NoAutomatic(w, w.worker.request))
  }

  lemma UnmutedInitially(w: World)
    requires Initial(w)
    ensures Unmuted(w)
  {
  }

  /** The same device and mode as a request that was queued. */
  predicate WasQueued(queue: seq<Request>, r: Request) {
    exists j :: 0 <= j < |queue| && queue[j].device == r.device && queue[j].mode == r.mode
  }

  predicate StillRunning(w: World, w': World) {
    w'.worker == w.worker
      && (w.worker.Running? && Stale(w, w.worker.request) ==> Stale(w', w.worker.request))
  }

  /** Nothing newly suppressed, and every request one that was there or is let in. */
  lemma StillUnmuted(w: World, w': World)
    requires Unmuted(w) && w'.suppressed <= w.suppressed
    requires forall i :: 0 <= i < |w'.queue| ==> NoAutomatic(w', w'.queue[i]) || WasQueued(w.queue, w'.queue[i])
    requires w'.worker.Running? ==> NoAutomatic(w', w'.worker.request) || StillRunning(w, w')
    ensures Unmuted(w')
  {
    hide Stale;
    forall i | 0 <= i < |w'.queue| ensures NoAutomatic(w', w'.queue[i]) {
      if WasQueued(w.queue, w'.queue[i]) {
        var j :| 0 <= j < |w.queue| && w.queue[j].device == w'.queue[i].device && w.queue[j].mode == w'.queue[i].mode;
        assert NoAutomatic(w, w.queue[j]);
      }
    }
  }

  lemma InQueueWas(queue: seq<Request>, r: Request)
    requires r in queue
    ensures WasQueued(queue, r)
  {
    var j :| 0 <= j < |queue| && queue[j] == r;
  }

  /** Retired generations stay retired, since no request runs ahead of its device's. */
  lemma StaysStale(w: World, w': World)
    requires Orderly(w) && w'.worker == w.worker
    requires w.worker.Running? ==>
      var d := w.worker.request.device; Generation(w.generations, d) <= Generation(w'.generations, d)
    ensures StillRunning(w, w')
  {
  }

  lemma AnswersUnmuted(w: World, w': World, d: DeviceId, hasSnapshot: bool, mode: Mode)
    requires Unmuted(w) && Orderly(w) && Answers(w, w', d, hasSnapshot, mode, None)
    ensures Unmuted(w')
  {
    hide Unmuted, Orderly, IsFirst, IsNew, StillRunning;
    if !Refused(w, d, mode) {
      assert w'.suppressed <= w.suppressed;
      forall i | 0 <= i < |w'.queue| ensures NoAutomatic(w', w'.queue[i]) || WasQueued(w.queue, w'.queue[i]) {
        AnsweredRequest(w, w', d, hasSnapshot, mode, i);
      }
      if w'.worker == w.worker {
        StaysStale(w, w');
      }
      StillUnmuted(w, w');
    }
  }

  lemma AnsweredRequest(w: World, w': World, d: DeviceId, hasSnapshot: bool, mode: Mode, i: nat)
    requires Answers(w, w', d, hasSnapshot, mode, None) && !Refused(w, d, mode) && i < |w'.queue|
    ensures NoAutomatic(w', w'.queue[i]) || WasQueued(w.queue, w'.queue[i])
  {
    hide IsFirst, IsNew;
    if Queued(w.queue, d) {
      var k :| 0 <= k < |w.queue| && IsFirst(w.queue, d, k) && UpdatesAt(w, w', k, hasSnapshot, mode, !mode.Automatic?);
      if i == k && !mode.Automatic? {
        NewIsFor(w, w'.queue[i], w.queue[k].device, mode);
      } else {
        assert w.queue[i].device == w'.queue[i].device && w.queue[i].mode == w'.queue[i].mode;
      }
    } else if i == |w.queue| {
      NewIsFor(w, w'.queue[i], d, mode);
    } else {
      assert w'.queue[..|w.queue|][i] == w.queue[i];
    }
  }

  lemma DisconnectUnmuted(w: World, d: DeviceId)
    requires Unmuted(w) && Orderly(w)
    ensures Unmuted(Disconnect(w, d))
  {
    hide Unmuted, Orderly, StillRunning;
    var w' := Disconnect(w, d);
    CloseEffect(Withdrawn(w, d), d, None, false);
    hide CloseSession;
    forall i | 0 <= i < |w'.queue| ensures WasQueued(w.queue, w'.queue[i]) {
      assert w'.queue[i] in w'.queue;
      InQueueWas(w.queue, w'.queue[i]);
    }
    StaysStale(w, w');
    StillUnmuted(w, w');
  }

  lemma ReconnectUnmuted(w: World, d: DeviceId)
    requires Unmuted(w) && Orderly(w)
    ensures Unmuted(MaybeReconnect(w, d))
  {
    EnqueueAnswers(w, d, true, Automatic, None);
    hide Enqueue, Answers, Unmuted, Orderly, Queued;
    AnswersUnmuted(w, Enqueue(w, d, true, Automatic, None), d, true, Automatic);
  }

  lemma ClickUnmuted(w: World, e: Event)
    requires Unmuted(w) && Orderly(w) && (e.QuickClicked? || e.ForceClicked?)
    ensures Unmuted(UserDoes(w, e))
  {
    hide Enqueue, Answers, Unmuted, Orderly, Queued, Disconnect;
    var mode, hasSnapshot := if e.QuickClicked? then Quick else Forced, e.QuickClicked?;
    EnqueueAnswers(w, e.device, hasSnapshot, mode, None);
    AnswersUnmuted(w, Enqueue(w, e.device, hasSnapshot, mode, None), e.device, hasSnapshot, mode);
    DisconnectUnmuted(w, e.device);
  }

  /** A remote close suppresses a device that has neither a queued request nor an attempt that
      could still connect it. */
  lemma ClosedUnmuted(w: World, d: DeviceId, generation: nat, link: LinkId, readsClosed: bool)
    requires Core(w) && Unmuted(w)
    ensures Unmuted(LinkClosed(w, d, generation, link, readsClosed))
  {
    var w' := LinkClosed(w, d, generation, link, readsClosed);
    ClosedReportActsOnItsOwnSession(w, d, generation, link, readsClosed);
    ClosedKeepsGenerations(w, d, generation, link, readsClosed);
    hide LinkClosed;
    if RemoteClose(w, d, generation, link, readsClosed) {
      ConnectedAlone(w, d);
    }
    hide Core;
  }

  lemma ClosedKeepsGenerations(w: World, d: DeviceId, generation: nat, link: LinkId, readsClosed: bool)
    ensures LinkClosed(w, d, generation, link, readsClosed).generations == w.generations
  {
    CloseEffect(Muted(w, d), d, Some(generation), true);
    hide CloseSession;
  }

  /** A connected device has no queued request, and no attempt but a superseded or a successful one. */
  lemma ConnectedAlone(w: World, d: DeviceId)
    requires Core(w) && d in w.sessions && w.sessions[d].phase.Connected?
    ensures forall i :: 0 <= i < |w.queue| ==> w.queue[i].device != d
    ensures w.worker.Running? && w.worker.request.device == d && !Stale(w, w.worker.request) ==>
              w.worker.pc.Returned? && w.worker.pc.result.Success?
  {
    hide RadioOk, RunningOk, PendingOk, BudgetOk, ApartFromQueue, Distinct;
    forall i | 0 <= i < |w.queue| ensures w.queue[i].device != d {
      assert QueuedOk(w.queue[i], w.generations, w.sessions, w.lastAttempt);
    }
  }

  lemma SameUnmuted(w: World, w': World)
    requires Unmuted(w) && Orderly(w) && w'.suppressed == w.suppressed
    requires |w'.queue| == |w.queue|
    requires forall i :: 0 <= i < |w.queue| ==>
      w'.queue[i].device == w.queue[i].device && w'.queue[i].mode == w.queue[i].mode
    requires w'.generations == w.generations && (w'.worker == w.worker || !w'.worker.Running?)
    ensures Unmuted(w')
  {
    forall i | 0 <= i < |w'.queue| ensures NoAutomatic(w', w'.queue[i]) {
      assert NoAutomatic(w, w.queue[i]);
    }
  }

  lemma AppearsUnmuted(w: World, d: DeviceId, newlyPresent: bool)
    requires Unmuted(w) && Orderly(w)
    ensures Unmuted(DeviceAppears(w, d, newlyPresent))
  {
    var v := w.(queue := ResetNotBefore(w.queue, d));
    assert Orderly(v);
    SameUnmuted(w, v);
    hide MaybeReconnect, Unmuted, Orderly;
    ReconnectUnmuted(w, d);
    ReconnectUnmuted(v, d);
  }

  lemma RememberUnmuted(w: World, d: DeviceId, discovered: bool)
    requires Unmuted(w) && Orderly(w) && d in w.desired
    ensures Unmuted(RememberOne(w, d, discovered))
  {
    var v := w.(pending := w.pending + {d});
    assert Orderly(v);
    SameUnmuted(w, v);
    hide MaybeReconnect, Unmuted, Orderly;
    ReconnectUnmuted(v, d);
  }

  lemma ShutdownUnmuted(w: World, ids: seq<DeviceId>)
    requires Unmuted(w) && Orderly(w)
    ensures Unmuted(BeginShutdown(w, ids))
  {
    CloseAllEffect(Halted(w), ids);
    hide CloseAll, Unmuted, Orderly, StillRunning;
    var w' := BeginShutdown(w, ids);
    StaysStale(w, w');
    StillUnmuted(w, w');
  }

  lemma UserUnmuted(w: World, e: Event)
    requires Core(w) && Unmuted(w) && UserEnabled(w, e)
    ensures Unmuted(UserDoes(w, e))
  {
    CoreIsOrderly(w);
    hide Core, Orderly, Unmuted, ClickQuick, ClickForce, DeviceAppears, RememberOne, LinkClosed, BeginShutdown, Lists;
    if e.QuickClicked? || e.ForceClicked? {
      ClickUnmuted(w, e);
    } else if e.Appeared? {
      AppearsUnmuted(w, e.device, e.newlyPresent);
    } else if e.Left? {
      SameUnmuted(w, DeviceLeaves(w, e.device));
    } else if e.Remembered? {
      RememberUnmuted(w, e.device, e.discovered);
    } else if e.ReconnectSet? {
      SameUnmuted(w, w.(reconnectEnabled := e.on));
    } else if e.ClosedReported? {
      ClosedUnmuted(w, e.device, e.generation, e.link, e.readsClosed);
    } else {
      ShutdownUnmuted(w, e.ids);
    }
  }

  lemma HeadUnmuted(w: World, now: nat)
    requires Unmuted(w) && w.worker.Head?
    ensures Unmuted(WorkerHead(w, now))
  {
    HeadFramed(w, now);
    hide WorkerHead;
    var w' := WorkerHead(w, now);
    forall r | r in w.queue ensures NoAutomatic(w, r) {
      var i :| 0 <= i < |w.queue| && w.queue[i] == r;
    }
  }

  lemma DoneUnmuted(w: World, e: Event)
    requires Judged(w) && Unmuted(w) && LoopEnabled(w, e) && e.AttemptDone?
    ensures Unmuted(LoopDoes(w, e))
  {
    DoneFramed(w, e);
    TurnAnswers(w, e);
    hide LoopDoes, LoopEnabled, EarnsRetry, Judged, RetryRequest, Stale;
    var w' := LoopDoes(w, e);
    forall i | 0 <= i < |w'.queue| ensures NoAutomatic(w', w'.queue[i]) {
      if i < |w.queue| {
        assert w'.queue[..|w.queue|][i] == w.queue[i];
        assert NoAutomatic(w, w.queue[i]);
      }
    }
  }

  lemma LoopUnmuted(w: World, e: Event)
    requires Core(w) && Unmuted(w) && LoopEnabled(w, e)
    ensures Unmuted(LoopDoes(w, e))
  {
    CoreIsOrderly(w);
    CoreJudges(w);
    hide Core, Orderly, Judged, Unmuted, WorkerHead, WorkerExit, AttemptReturned, AttemptThrew;
    if e.HeadRan? {
      HeadUnmuted(w, e.now);
    } else if e.AttemptDone? {
      DoneUnmuted(w, e);
    } else {
      ExitFramed(w);
      SameUnmuted(w, WorkerExit(w));
    }
  }

  /** An attempt id names at most one live request. */
  lemma LiveIsUnique(w: World, r: Request, q: Request)
    requires Core(w) && LiveRequest(w, r) && LiveRequest(w, q) && r.attemptId == q.attemptId
    ensures r == q
  {
    hide SessionsOk, RadioOk, RunningOk, PendingOk, QueuedOk, BudgetOk, PresenceOk;
  }

  /** A segment keeps its attempt's mode. */
  lemma AttemptKeepsMode(w: World, e: Event)
    requires Core(w) && Enabled(w, e) && AttemptEvent(e)
    ensures w.worker.Running? && AttemptFrame(w, Apply(w, e))
    ensures Grows(w.worker.request, Apply(w, e).worker.request)
  {
    hide Core, Enabled, Apply, CalmFrame, AttemptEvent;
    AttemptStaysInFrame(w, e);
    OldRequests(w);
    var r := GrownFrom(w, e, Apply(w, e).worker.request);
    LiveIsUnique(w, r, w.worker.request);
  }

  lemma AttemptUnmuted(w: World, e: Event)
    requires Core(w) && Enabled(w, e) && AttemptEvent(e) && Unmuted(w)
    ensures Unmuted(Apply(w, e))
  {
    hide Core, Enabled, Apply, AttemptEvent;
    AttemptKeepsMode(w, e);
    AttemptNotDone(w, e);
    var w' := Apply(w, e);
    forall i | 0 <= i < |w'.queue| ensures NoAutomatic(w', w'.queue[i]) {
      assert NoAutomatic(w, w.queue[i]);
    }
  }

  lemma AttemptNotDone(w: World, e: Event)
    requires Enabled(w, e) && AttemptEvent(e)
    ensures w.worker.Running? && !w.worker.pc.Returned? && !w.worker.pc.Threw?
  {
    hide UserEnabled, LoopEnabled, OpeningEnabled, RecoveryEnabled, LinkEnabled, BackgroundEnabled;
    StepByGroup(w, e);
    hide Apply;
    NotDone(w, e);
  }

  lemma UnmutedStep(w: World, e: Event)
    requires Core(w) && Enabled(w, e) && Unmuted(w)
    ensures Unmuted(Apply(w, e))
  {
    hide Core, Apply, Unmuted, RestFrame, UserEnabled, UserDoes, LoopEnabled, LoopDoes, OpeningEnabled,
      RecoveryEnabled, LinkEnabled, BackgroundEnabled, BackgroundDoes;
    StepByGroup(w, e);
    if UserEnabled(w, e) {
      UserUnmuted(w, e);
    } else if LoopEnabled(w, e) {
      LoopUnmuted(w, e);
    } else if BackgroundEnabled(w, e) {
      CoreIsOrderly(w);
      RestFramed(w, e);
      RestUnmuted(w, BackgroundDoes(w, e));
    } else {
      AttemptUnmuted(w, e);
    }
  }

  lemma RestUnmuted(w: World, w': World)
    requires Orderly(w) && Unmuted(w) && RestFrame(w, w')
    ensures Unmuted(w')
  {
    SameUnmuted(w, w');
  }

  // ---------------------------------------------------------------- what is left of an ended attempt

  lemma TurnEndsExactly(w: World, e: Event)
    requires Core(w) && Unmuted(w) && Enabled(w, e) && e.AttemptDone?
    ensures TurnOver(w)
    ensures EndsTurn(w, Apply(w, e), w.worker.request, TurnResult(w), EarnsRetry(w), e.now)
  {
    hide Core, Judged, Apply, LoopDoes, LoopEnabled, EndsTurn;
    StepByGroup(w, e);
    CoreJudges(w);
    TurnAnswers(w, e);
    hide Queued, MayPrepare;
  }

  lemma TurnRuns(w: World)
    requires TurnOver(w)
    ensures w.worker.Running?
  {
  }

  lemma NotRetried(w: World, w': World, e: Event)
    requires TurnOver(w) && e.AttemptDone?
    requires EndsTurn(w, w', w.worker.request, TurnResult(w), false, e.now)
    ensures w'.queue == w.queue
  {
  }

  lemma IdIsOld(w: World, e: Event)
    requires Core(w) && Enabled(w, e) && w.worker.Running?
    ensures w.worker.request.attemptId <= Apply(w, e).lastAttempt
  {
    hide Core, Enabled, Apply;
    OldRequests(w);
    AttemptIdsGrow(w, e);
  }

  lemma SameId(r: Request, q: Request)
    requires Grows(r, q)
    ensures r.attemptId == q.attemptId && r.mode == q.mode && (r.strategy.Direct? ==> q.strategy.Direct?)
  {
  }

  lemma NoneIsLeft(w: World, e: Event, r: Request)
    requires Core(w) && Enabled(w, e) && e.AttemptDone? && TurnOver(w) && Apply(w, e).queue == w.queue
    requires LiveRequest(Apply(w, e), r)
    ensures r.attemptId != w.worker.request.attemptId
  {
    hide Core, Apply, LoopDoes, RetryRequest;
    StepByGroup(w, e);
    DoneFramed(w, e);
    CoreAccounted(w);
    hide BudgetOk;
  }

  // ---------------------------------------------------------------- nothing else ends a request

  predicate QueuedAs(queue: seq<Request>, a: nat) {
    exists i :: 0 <= i < |queue| && queue[i].attemptId == a
  }

  predicate QueuedFor(queue: seq<Request>, a: nat, d: DeviceId) {
    exists i :: 0 <= i < |queue| && queue[i].attemptId == a && queue[i].device == d
  }

  /** What can end the request with this id: the shutdown while it is queued, a click on its
      device while it is queued, and its own turn if that does not earn a retry. */
  predicate EndsRequest(w: World, e: Event, a: nat) {
    || (e.ShutdownBegan? && QueuedAs(w.queue, a))
    || ((e.QuickClicked? || e.ForceClicked?) && QueuedFor(w.queue, a, e.device))
    || (e.AttemptDone? && TurnOver(w) && w.worker.request.attemptId == a && !EarnsRetry(w))
  }

  predicate GrownIn(queue: seq<Request>, r: Request) {
    exists i :: 0 <= i < |queue| && Grows(r, queue[i])
  }

  /** The request is still in line or in flight, at least as far as it was. */
  predicate Lives(w: World, r: Request) {
    GrownIn(w.queue, r) || (w.worker.Running? && Grows(r, w.worker.request))
  }

  lemma LivesAsIs(w: World, r: Request)
    requires LiveRequest(w, r)
    ensures Lives(w, r)
  {
    if r in w.queue {
      var i :| 0 <= i < |w.queue| && w.queue[i] == r;
      assert Grows(r, w.queue[i]);
    }
  }

  lemma GrownAt(queue: seq<Request>, i: nat, r: Request)
    requires i < |queue| && Grows(r, queue[i])
    ensures GrownIn(queue, r)
  {
  }

  lemma AnswersKeepOthers(w: World, w': World, d: DeviceId, hasSnapshot: bool, mode: Mode, i: nat)
    requires Answers(w, w', d, hasSnapshot, mode, None) && i < |w.queue|
    requires mode.Automatic? || w.queue[i].device != d
    ensures |w'.queue| > i && Grows(w.queue[i], w'.queue[i])
  {
    hide IsNew;
    if !Refused(w, d, mode) {
      if Queued(w.queue, d) {
        var k :| 0 <= k < |w.queue| && IsFirst(w.queue, d, k)
          && UpdatesAt(w, w', k, hasSnapshot, mode, !mode.Automatic?);
      } else {
        assert w'.queue[..|w.queue|][i] == w.queue[i];
      }
    }
  }

  lemma AnswersKeepAttempt(w: World, w': World, d: DeviceId, hasSnapshot: bool, mode: Mode)
    requires Serving(w) && Answers(w, w', d, hasSnapshot, mode, None) && w.worker.Running?
    requires w.workerRunning
    ensures w'.worker == w.worker
  {
    hide IsNew, IsFirst, Refused;
  }

  lemma AnswersLengthen(w: World, w': World, d: DeviceId, hasSnapshot: bool, mode: Mode)
    requires Answers(w, w', d, hasSnapshot, mode, None)
    ensures |w'.queue| >= |w.queue|
  {
    hide IsNew, IsFirst, Refused;
  }

  /** An answer to somebody else keeps every request, and so does an Automatic one to anybody. */
  lemma AnswersKeep(w: World, w': World, d: DeviceId, hasSnapshot: bool, mode: Mode, r: Request)
    requires Serving(w) && (w.worker.Running? ==> w.workerRunning)
    requires Answers(w, w', d, hasSnapshot, mode, None) && LiveRequest(w, r)
    requires mode.Automatic? || r.device != d || r !in w.queue
    ensures Lives(w', r)
  {
    hide Answers, Serving;
    AnswersLengthen(w, w', d, hasSnapshot, mode);
    if r in w.queue {
      var i :| 0 <= i < |w.queue| && w.queue[i] == r;
      AnswersKeepOthers(w, w', d, hasSnapshot, mode, i);
      GrownAt(w'.queue, i, r);
    } else {
      AnswersKeepAttempt(w, w', d, hasSnapshot, mode);
    }
  }

  lemma ReconnectLives(w: World, d: DeviceId, r: Request)
    requires Serving(w) && (w.worker.Running? ==> w.workerRunning) && LiveRequest(w, r)
    ensures Lives(MaybeReconnect(w, d), r)
  {
    EnqueueAnswers(w, d, true, Automatic, None);
    hide Enqueue, Answers, Queued, LiveRequest, Lives;
    AnswersKeep(w, Enqueue(w, d, true, Automatic, None), d, true, Automatic, r);
    LivesAsIs(w, r);
  }

  lemma DisconnectLives(w: World, d: DeviceId, r: Request)
    requires LiveRequest(w, r) && (r.device != d || r !in w.queue)
    ensures Lives(Disconnect(w, d), r)
  {
    CloseEffect(Withdrawn(w, d), d, None, false);
    hide CloseSession;
    assert LiveRequest(Disconnect(w, d), r);
    LivesAsIs(Disconnect(w, d), r);
  }

  lemma ClickLives(w: World, e: Event, r: Request)
    requires Serving(w) && (w.worker.Running? ==> w.workerRunning) && LiveRequest(w, r)
    requires (e.QuickClicked? || e.ForceClicked?) && !QueuedFor(w.queue, r.attemptId, e.device)
    ensures Lives(UserDoes(w, e), r)
  {
    hide Enqueue, Answers, Queued, Disconnect, Lives, Serving;
    var mode, hasSnapshot := if e.QuickClicked? then Quick else Forced, e.QuickClicked?;
    assert r.device != e.device || r !in w.queue;
    EnqueueAnswers(w, e.device, hasSnapshot, mode, None);
    AnswersKeep(w, Enqueue(w, e.device, hasSnapshot, mode, None), e.device, hasSnapshot, mode, r);
    DisconnectLives(w, e.device, r);
    LivesAsIs(w, r);
  }

  lemma AppearsLives(w: World, d: DeviceId, newlyPresent: bool, r: Request)
    requires Serving(w) && (w.worker.Running? ==> w.workerRunning) && LiveRequest(w, r)
    ensures Lives(DeviceAppears(w, d, newlyPresent), r)
  {
    var v := w.(queue := ResetNotBefore(w.queue, d));
    assert Serving(v);
    hide MaybeReconnect, Lives, Serving, ResetNotBefore, LiveRequest;
    ReconnectLives(w, d, r);
    LivesAsIs(w, r);
    var q := ResetLives(w, v, d, r);
    ReconnectLives(v, d, q);
    LivesThrough(MaybeReconnect(v, d), r, q);
  }

  lemma ResetLives(w: World, v: World, d: DeviceId, r: Request) returns (q: Request)
    requires v == w.(queue := ResetNotBefore(w.queue, d)) && LiveRequest(w, r)
    ensures LiveRequest(v, q) && Grows(r, q)
  {
    if r in w.queue {
      var i :| 0 <= i < |w.queue| && w.queue[i] == r;
      q := v.queue[i];
    } else {
      q := r;
    }
  }

  lemma LivesThrough(w: World, r: Request, q: Request)
    requires Grows(r, q) && Lives(w, q)
    ensures Lives(w, r)
  {
    if GrownIn(w.queue, q) {
      var i :| 0 <= i < |w.queue| && Grows(q, w.queue[i]);
      GrownAt(w.queue, i, r);
    }
  }

  lemma RememberLives(w: World, d: DeviceId, discovered: bool, r: Request)
    requires Serving(w) && (w.worker.Running? ==> w.workerRunning) && LiveRequest(w, r)
    ensures Lives(RememberOne(w, d, discovered), r)
  {
    var v := w.(pending := w.pending + {d});
    hide MaybeReconnect, Lives;
    ReconnectLives(v, d, r);
    LivesAsIs(w, r);
    LivesAsIs(v, r);
  }

  lemma ShutdownLives(w: World, ids: seq<DeviceId>, r: Request)
    requires LiveRequest(w, r) && (w.stopping || !QueuedAs(w.queue, r.attemptId))
    ensures Lives(BeginShutdown(w, ids), r)
  {
    CloseAllEffect(Halted(w), ids);
    hide CloseAll;
    LivesAsIs(w, r);
  }

  lemma UntouchedLives(w: World, w': World, r: Request)
    requires LiveRequest(w, r) && w'.queue == w.queue && (w'.worker == w.worker || !w.worker.Running?)
    ensures Lives(w', r)
  {
    LivesAsIs(w', r);
  }

  lemma ClosedLives(w: World, e: Event, r: Request)
    requires e.ClosedReported? && LiveRequest(w, r)
    ensures Lives(UserDoes(w, e), r)
  {
    ClosedReportActsOnItsOwnSession(w, e.device, e.generation, e.link, e.readsClosed);
    hide LinkClosed, RemoteClose;
    UntouchedLives(w, UserDoes(w, e), r);
  }

  lemma UserLives(w: World, e: Event, r: Request)
    requires Serving(w) && (w.worker.Running? ==> w.workerRunning) && UserEnabled(w, e) && LiveRequest(w, r)
    requires !EndsRequest(w, e, r.attemptId)
    ensures Lives(UserDoes(w, e), r)
  {
    hide Serving, Lives, LiveRequest, ClickQuick, ClickForce, DeviceAppears, RememberOne, LinkClosed, BeginShutdown,
      Lists, QueuedAs, QueuedFor, EarnsRetry;
    if e.QuickClicked? || e.ForceClicked? {
      ClickLives(w, e, r);
    } else if e.Appeared? {
      AppearsLives(w, e.device, e.newlyPresent, r);
    } else if e.Left? {
      UntouchedLives(w, DeviceLeaves(w, e.device), r);
    } else if e.Remembered? {
      RememberLives(w, e.device, e.discovered, r);
    } else if e.ReconnectSet? {
      UntouchedLives(w, w.(reconnectEnabled := e.on), r);
    } else if e.ClosedReported? {
      ClosedLives(w, e, r);
    } else {
      ShutdownLives(w, e.ids, r);
    }
  }

  lemma PopKeeps(queue: seq<Request>, i: nat, r: Request)
    requires i < |queue| && r in queue && r != queue[i]
    ensures GrownIn(RemoveAt(queue, i), r)
  {
    var j :| 0 <= j < |queue| && queue[j] == r;
    var k := if j < i then j else j - 1;
    assert RemoveAt(queue, i)[k] == r;
    GrownAt(RemoveAt(queue, i), k, r);
  }

  /** Taking a request up discards none: what is queued is current and its device idle. */
  lemma HeadTakesOrKeeps(w: World, now: nat)
    requires QueueOk(w.queue, w.generations, w.sessions, w.lastAttempt) && w.worker.Head?
    ensures
      var w' := WorkerHead(w, now);
      || w'.queue == w.queue
      || exists i :: 0 <= i < |w.queue| && w'.queue == RemoveAt(w.queue, i) && w'.worker == Running(w.queue[i], Popped)
  {
    hide NextIndex, RemoveAt, Distinct;
    if w.queue != [] && !w.stopping && !w.bluetooth.inProgress {
      assert QueuedOk(w.queue[NextIndex(w.queue)], w.generations, w.sessions, w.lastAttempt);
    }
  }

  lemma HeadLives(w: World, now: nat, r: Request)
    requires QueueOk(w.queue, w.generations, w.sessions, w.lastAttempt) && w.worker.Head? && LiveRequest(w, r)
    ensures Lives(WorkerHead(w, now), r)
  {
    HeadTakesOrKeeps(w, now);
    hide WorkerHead, RemoveAt, QueueOk, GrownIn;
    var w' := WorkerHead(w, now);
    if w'.queue == w.queue {
      UntouchedLives(w, w', r);
    } else {
      var i :| 0 <= i < |w.queue| && w'.queue == RemoveAt(w.queue, i) && w'.worker == Running(w.queue[i], Popped);
      if r != w.queue[i] {
        PopKeeps(w.queue, i, r);
      }
    }
  }

  lemma DoneLives(w: World, e: Event, r: Request)
    requires Judged(w) && Unmuted(w) && LoopEnabled(w, e) && e.AttemptDone? && LiveRequest(w, r)
    requires !EndsRequest(w, e, r.attemptId)
    ensures Lives(LoopDoes(w, e), r)
  {
    TurnAnswers(w, e);
    hide LoopDoes, LoopEnabled, Judged;
    var w' := LoopDoes(w, e);
    if r in w.queue {
      var i :| 0 <= i < |w.queue| && w.queue[i] == r;
      assert w'.queue[i] == r;
      GrownAt(w'.queue, i, r);
    } else {
      GrownAt(w'.queue, |w.queue|, r);
    }
  }

  lemma LoopLives(w: World, e: Event, r: Request)
    requires Core(w) && Unmuted(w) && LoopEnabled(w, e) && LiveRequest(w, r) && !EndsRequest(w, e, r.attemptId)
    ensures Lives(LoopDoes(w, e), r)
  {
    CoreJudges(w);
    hide QueueOk, SessionsOk, WorkerOk, RadioOk, RunningOk, PendingOk, Judged, Unmuted, WorkerHead, WorkerExit,
      AttemptReturned, AttemptThrew, EndsRequest, Lives;
    if e.HeadRan? {
      HeadLives(w, e.now, r);
    } else if e.AttemptDone? {
      DoneLives(w, e, r);
    } else {
      ExitFramed(w);
      UntouchedLives(w, WorkerExit(w), r);
    }
  }

  lemma AttemptLives(w: World, e: Event, r: Request)
    requires Core(w) && Enabled(w, e) && AttemptEvent(e) && LiveRequest(w, r)
    ensures Lives(Apply(w, e), r)
  {
    hide Core, Enabled, Apply, AttemptEvent;
    AttemptKeepsMode(w, e);
    LivesAsIs(w, r);
  }

  /** One step ends no request but in these ways. */
  lemma RequestLives(w: World, e: Event, r: Request)
    requires Core(w) && Unmuted(w) && Enabled(w, e) && LiveRequest(w, r) && !EndsRequest(w, e, r.attemptId)
    ensures Lives(Apply(w, e), r)
  {
    hide Core, Apply, Unmuted, Serving, EndsRequest, Lives, RestFrame, UserEnabled, UserDoes, LoopEnabled, LoopDoes,
      OpeningEnabled, RecoveryEnabled, LinkEnabled, BackgroundEnabled, BackgroundDoes;
    StepByGroup(w, e);
    if UserEnabled(w, e) {
      CoreServes(w);
      WorkerRuns(w);
      UserLives(w, e, r);
    } else if LoopEnabled(w, e) {
      LoopLives(w, e, r);
    } else if BackgroundEnabled(w, e) {
      RestFramed(w, e);
      RestLives(w, e, r);
    } else {
      AttemptLives(w, e, r);
    }
  }

  lemma WorkerRuns(w: World)
    requires Core(w)
    ensures w.worker.Running? ==> w.workerRunning
  {
    hide QueueOk, SessionsOk, WorkerOk, RadioOk, PendingOk;
  }

  lemma RestLives(w: World, e: Event, r: Request)
    requires BackgroundEnabled(w, e) && LiveRequest(w, r)
    ensures Lives(BackgroundDoes(w, e), r)
  {
    hide BackgroundEnabled, BackgroundDoes;
    BackgroundEffect(w, e);
    UntouchedLives(w, BackgroundDoes(w, e), r);
  }

  lemma LivingRequest(w: World, r: Request) returns (q: Request)
    requires Lives(w, r)
    ensures LiveRequest(w, q) && Grows(r, q)
  {
    if GrownIn(w.queue, r) {
      var i :| 0 <= i < |w.queue| && Grows(r, w.queue[i]);
      q := w.queue[i];
    } else {
      q := w.worker.request;
    }
  }

  /** What telling ids apart leans on. */
  predicate IdsApart(w: World) {
    && (forall i, j :: 0 <= i < j < |w.queue| ==>
          w.queue[i].attemptId != w.queue[j].attemptId && w.queue[i].device != w.queue[j].device)
    && (forall i :: 0 <= i < |w.queue| ==>
          w.queue[i].attemptId <= w.lastAttempt && w.queue[i].device !in w.sessions && w.queue[i].device != NO_DEVICE)
    && (w.worker.Running? ==> forall i :: 0 <= i < |w.queue| ==> w.queue[i].attemptId != w.worker.request.attemptId)
    && (w.stopping ==> w.queue == [])
  }

  lemma CoreKeepsIdsApart(w: World)
    requires Core(w)
    ensures IdsApart(w)
  {
    hide SessionsOk, RadioOk, PendingOk, BudgetOk, PresenceOk;
    forall i | 0 <= i < |w.queue|
      ensures w.queue[i].attemptId <= w.lastAttempt && w.queue[i].device !in w.sessions
        && w.queue[i].device != NO_DEVICE
    {
      assert QueuedOk(w.queue[i], w.generations, w.sessions, w.lastAttempt);
    }
  }

  lemma DisconnectedIsGone(w: World, d: DeviceId, a: nat, r: Request)
    requires IdsApart(w) && QueuedFor(w.queue, a, d) && LiveRequest(Disconnect(w, d), r)
    ensures r.attemptId != a
  {
    CloseEffect(Withdrawn(w, d), d, None, false);
    hide CloseSession;
    var i :| 0 <= i < |w.queue| && w.queue[i].attemptId == a && w.queue[i].device == d;
    if r in Disconnect(w, d).queue {
      var j :| 0 <= j < |w.queue| && w.queue[j] == r;
      assert i != j;
    }
  }

  lemma OverriddenIsGone(w: World, d: DeviceId, a: nat, r: Request)
    requires Serving(w) && IdsApart(w) && QueuedFor(w.queue, a, d)
    requires LiveRequest(Enqueue(w, d, false, Forced, None), r)
    ensures r.attemptId != a
  {
    hide Enqueue, Answers, ServesClick, EnqueueFrame, Serving, LiveRequest;
    var w' := Enqueue(w, d, false, Forced, None);
    var i :| 0 <= i < |w.queue| && w.queue[i].attemptId == a && w.queue[i].device == d;
    EnqueueFramed(w, d, false, Forced, None);
    EnqueueAnswers(w, d, false, Forced, None);
    AnsweredClick(w, w', d, false, Forced);
    OnlyTheNewOne(w, w', d, i, r);
  }

  lemma OnlyTheNewOne(w: World, w': World, d: DeviceId, i: nat, r: Request)
    requires IdsApart(w) && i < |w.queue| && w.queue[i].device == d
    requires EnqueueFrame(w, w', d, None) && ServesClick(w, w', d, Forced) && LiveRequest(w', r)
    ensures r.attemptId != w.queue[i].attemptId
  {
    hide IsNew, Newest;
    if r in w'.queue {
      var k :| 0 <= k < |w'.queue| && w'.queue[k] == r;
      if r.device == d {
        NewHasNewId(w, r, d, Forced);
      } else {
        var j :| 0 <= j < |w.queue| && Kept(w.queue[j], r);
      }
    }
  }

  lemma NewHasNewId(w: World, r: Request, d: DeviceId, mode: Mode)
    requires IsNew(w, r, d, mode)
    ensures r.attemptId == w.lastAttempt + 1
  {
  }

  lemma ClearedIsGone(w: World, ids: seq<DeviceId>, a: nat, r: Request)
    requires IdsApart(w) && QueuedAs(w.queue, a) && LiveRequest(BeginShutdown(w, ids), r)
    ensures r.attemptId != a
  {
    CloseAllEffect(Halted(w), ids);
    hide CloseAll;
  }

  lemma TurnIsGone(w: World, e: Event, r: Request)
    requires Core(w) && Unmuted(w) && Enabled(w, e) && e.AttemptDone? && TurnOver(w) && !EarnsRetry(w)
    requires LiveRequest(Apply(w, e), r)
    ensures r.attemptId != w.worker.request.attemptId
  {
    hide Core, Unmuted, Enabled, Apply, EarnsRetry, EndsTurn, LiveRequest;
    TurnEndsExactly(w, e);
    NotRetried(w, Apply(w, e), e);
    NoneIsLeft(w, e, r);
  }

  lemma UserIsGone(w: World, e: Event, a: nat, r: Request)
    requires Core(w) && UserEvent(e) && EndsRequest(w, e, a) && LiveRequest(UserDoes(w, e), r)
    ensures r.attemptId != a
  {
    CoreKeepsIdsApart(w);
    CoreServes(w);
    hide Core, Serving, IdsApart, ClickQuick, ClickForce, BeginShutdown, LiveRequest, QueuedAs, QueuedFor, EarnsRetry;
    if e.ShutdownBegan? {
      ClearedIsGone(w, e.ids, a, r);
    } else {
      ClickedIsGone(w, e, a, r);
    }
  }

  /** And each of these does end it. */
  lemma EndedIsGone(w: World, e: Event, a: nat, r: Request)
    requires Core(w) && Unmuted(w) && Enabled(w, e) && EndsRequest(w, e, a) && LiveRequest(Apply(w, e), r)
    ensures r.attemptId != a
  {
    hide Core, Unmuted, Enabled, Apply, EarnsRetry, UserDoes, LiveRequest, QueuedAs, QueuedFor;
    if e.AttemptDone? {
      TurnIsGone(w, e, r);
    } else {
      StepByGroup(w, e);
      UserIsGone(w, e, a, r);
    }
  }

  lemma ClickedIsGone(w: World, e: Event, a: nat, r: Request)
    requires Serving(w) && IdsApart(w) && (e.QuickClicked? || e.ForceClicked?) && QueuedFor(w.queue, a, e.device)
    requires LiveRequest(UserDoes(w, e), r)
    ensures r.attemptId != a
  {
    hide Disconnect, Enqueue, LiveRequest, Serving;
    var i :| 0 <= i < |w.queue| && w.queue[i].attemptId == a && w.queue[i].device == e.device;
    assert Queued(w.queue, e.device) && !w.stopping && e.device !in w.sessions;
    if e.QuickClicked? {
      DisconnectedIsGone(w, e.device, a, r);
    } else {
      OverriddenIsGone(w, e.device, a, r);
    }
  }

  predicate LiveAs(w: World, a: nat) {
    QueuedAs(w.queue, a) || (w.worker.Running? && w.worker.request.attemptId == a)
  }

  lemma LiveIdIsOld(w: World, r: Request)
    requires Core(w) && LiveRequest(w, r)
    ensures r.attemptId <= w.lastAttempt
  {
    OldRequests(w);
    hide Core;
  }

  lemma LiveHasId(w: World, r: Request)
    requires LiveRequest(w, r)
    ensures LiveAs(w, r.attemptId)
  {
  }

  lemma IdIsLive(w: World, a: nat) returns (r: Request)
    requires LiveAs(w, a)
    ensures LiveRequest(w, r) && r.attemptId == a
  {
    if QueuedAs(w.queue, a) {
      var i :| 0 <= i < |w.queue| && w.queue[i].attemptId == a;
      r := w.queue[i];
    } else {
      r := w.worker.request;
    }
  }

  // ---------------------------------------------------------------- Forced and Automatic requests

  /** The step at which an attempt comes to its preparation, past the checks and the wait. */
  predicate ComesToPrepare(e: Event, w': World) {
    && (e.AttemptBegan? || e.OldFlowAwaited?)
    && w'.worker.Running? && !w'.worker.pc.Returned? && !w'.worker.pc.WaitingOldFlow?
  }

  lemma NotYetReleased(w: World, h: seq<Mark>)
    requires Told(w, h) && w.worker.Running? && w.worker.request.mode.Forced?
    requires Count(h, PreparationStarted, w.worker.request.attemptId) == 0
    ensures w.worker.request.strategy.RestartBluetooth? && w.worker.request.preparationAttempts == 0
  {
    hide Count, SetsTold;
    assert RequestTold(w.worker.request, h);
  }

  lemma PreparesNow(w: World, e: Event)
    requires Core(w) && Core(Apply(w, e)) && Enabled(w, e) && ComesToPrepare(e, Apply(w, e)) && w.worker.Running?
    requires w.worker.request.strategy.RestartBluetooth? && w.worker.request.preparationAttempts == 0
    ensures Apply(w, e).worker.Running? && Apply(w, e).worker.pc == EnteringRecovery(w.worker.request.mode.Forced?)
  {
    hide Core, Apply, Enabled, OpeningEnabled;
    StepByGroup(w, e);
    StraightOn(w, e);
  }

  lemma StraightOn(w: World, e: Event)
    requires OpeningEnabled(w, e) && ComesToPrepare(e, OpeningDoes(w, e))
    ensures w.worker.Running? && OpeningDoes(w, e).worker.pc ==
              if w.worker.request.strategy.Direct? then AfterRecovery(NotRequired)
              else EnteringRecovery(w.worker.request.mode.Forced? && w.worker.request.preparationAttempts == 0)
  {
    var r := w.worker.request;
    if e.AttemptBegan? {
      AttemptBeginsCases(w);
      hide AttemptBegins, Emplaced;
    } else {
      hide IsCurrent;
    }
  }

  predicate InFlight(w: World, a: nat) { w.worker.Running? && w.worker.request.attemptId == a }

  lemma AutomaticIsDirect(r: Request)
    requires r.mode.Automatic?
    ensures !r.mode.Forced? && !r.mode.Quick?
  {
  }

  lemma AttemptIsOld(w: World)
    requires Core(w)
    ensures forall a :: a > w.lastAttempt ==> !InFlight(w, a)
  {
    OldRequests(w);
    hide Core;
  }

  lemma FlightIsLive(w: World, a: nat)
    requires InFlight(w, a)
    ensures w.worker.Running? && LiveRequest(w, w.worker.request) && w.worker.request.attemptId == a
  {
  }

  /** An attempt that is to connect directly starts no preparation. */
  lemma NoStartMark(w: World, e: Event, h: seq<Mark>, a: nat)
    requires Core(w) && Enabled(w, e) && Count(h, PreparationStarted, a) == 0
    requires InFlight(w, a) ==> w.worker.request.strategy.Direct?
    ensures Count(h + Note(w, e, Apply(w, e)), PreparationStarted, a) == 0
  {
    hide Core, Enabled, Apply, Count;
    var note := Note(w, e, Apply(w, e));
    StartsOnlyRestarts(w, e);
    assert |note| <= 1;
    if note == [] {
      assert h + note == h;
    } else {
      assert note == [note[0]];
      CountMark(h, note[0], PreparationStarted, a);
    }
  }

  lemma StartsOnlyRestarts(w: World, e: Event)
    requires Core(w) && Enabled(w, e)
    ensures w.worker.Running? && Starts(e, Apply(w, e)) ==> w.worker.request.strategy.RestartBluetooth?
  {
    hide Core, Enabled, Apply, OpeningEnabled, OpeningDoes;
    StepByGroup(w, e);
    if e.AttemptBegan? || e.OldFlowAwaited? {
      BeginStep(w, e);
    }
  }
}
