/** Playback is never reclaimed: once a device went quiet, only an explicit click that is
    accepted for it brings it back. */
module ProtocolPlayback {
  import opened Wrappers
  import opened Records
  import opened Protocol
  import opened ProtocolCore
  import opened ProtocolFrames
  import opened ProtocolSteps
  import opened ProtocolRuns

  // ---------------------------------------------------------------- playback is not reclaimed

  /** An explicit click that QueueConnectionInternal accepts for the device. */
  predicate AcceptsClick(w: World, e: Event, d: DeviceId) {
    && !w.stopping && d != NO_DEVICE
    && ((e.QuickClicked? && e.device == d && e.discovered && d !in w.sessions && !Queued(w.queue, d))
        || (e.ForceClicked? && e.device == d && (d in w.sessions ==> w.sessions[d].phase.Connected?)))
  }

  /** A processed remote close outside recovery, or a user disconnect. */
  predicate Silences(w: World, e: Event, d: DeviceId) {
    && !w.stopping
    && ((e.ClosedReported? && e.device == d && !w.bluetooth.inProgress
         && RemoteClose(w, d, e.generation, e.link, e.readsClosed))
        || (e.QuickClicked? && e.device == d && (d in w.sessions || Queued(w.queue, d))))
  }

  predicate HarmlessWorker(worker: Worker, generations: map<DeviceId, nat>, d: DeviceId) {
    worker.Running? && worker.request.device == d ==>
      worker.request.generation != Generation(generations, d) || (worker.pc.Returned? && worker.pc.result.Success?)
  }

  /** The device has no session, no queued request, nothing in flight that could still
      connect it, and no way to be queued automatically. */
  predicate Quiet(w: World, d: DeviceId) {
    && d !in w.sessions && !Queued(w.queue, d)
    && (d in w.suppressed || d !in w.desired)
    && HarmlessWorker(w.worker, w.generations, d)
  }

  /** What keeping quiet leans on: only remembered devices wait to be reconnected, and no
      request runs ahead of its device's generation. */
  predicate Orderly(w: World) {
    && PendingOk(w.pending, w.desired)
    && (w.worker.Running? ==> w.worker.request.generation <= Generation(w.generations, w.worker.request.device))
  }

  lemma CoreIsOrderly(w: World)
    requires Core(w)
    ensures Orderly(w)
  {
    hide QueueOk, SessionsOk, RadioOk, RunningOk, PendingOk, BudgetOk, PresenceOk, ApartFromQueue;
  }

  lemma SilencedByClose(w: World, d: DeviceId, generation: nat, link: LinkId)
    requires Core(w) && Silences(w, ClosedReported(d, generation, link, true), d)
    ensures Quiet(LinkClosed(w, d, generation, link, true), d)
  {
    var v := w.(suppressed := w.suppressed + {d}, deferred := w.deferred + {d}, pending := w.pending - {d});
    CloseEffect(v, d, Some(generation), true);
    hide CloseSession;
  }

  lemma SilencedByDisconnect(w: World, d: DeviceId)
    requires Orderly(w) && !w.stopping
    ensures Quiet(Disconnect(w, d), d)
  {
    var v := Withdrawn(w, d);
    CloseEffect(v, d, None, false);
    hide CloseSession;
    forall i | 0 <= i < |v.queue| ensures v.queue[i].device != d {
      assert v.queue[i] in v.queue;
    }
  }

  lemma QuietEnqueue(w: World, w': World, d: DeviceId, other: DeviceId, retry: Option<Request>)
    requires Quiet(w, d) && d != other && EnqueueFrame(w, w', other, retry)
    ensures Quiet(w', d)
  {
    forall i | 0 <= i < |w'.queue| ensures w'.queue[i].device != d {
      if InQueue(w.queue, w'.queue[i]) {
        var j :| 0 <= j < |w.queue| && Kept(w.queue[j], w'.queue[i]);
      }
    }
  }

  lemma QuietDisconnect(w: World, d: DeviceId, other: DeviceId)
    requires Quiet(w, d) && d != other
    ensures Quiet(Disconnect(w, other), d)
  {
    var v := Withdrawn(w, other);
    CloseEffect(v, other, None, false);
    hide CloseSession;
    forall i | 0 <= i < |v.queue| ensures v.queue[i].device != d {
      assert v.queue[i] in w.queue;
    }
  }

  lemma QuietReconnect(w: World, d: DeviceId, other: DeviceId)
    requires Orderly(w) && Quiet(w, d)
    ensures Quiet(MaybeReconnect(w, other), d)
  {
    EnqueueFramed(w, other, true, Automatic, None);
    if other != d {
      hide Enqueue;
      QuietEnqueue(w, Enqueue(w, other, true, Automatic, None), d, other, None);
    } else {
      hide CloseSession, Place;
    }
  }

  lemma QuietClick(w: World, e: Event, d: DeviceId)
    requires Quiet(w, d) && !AcceptsClick(w, e, d) && (e.QuickClicked? || e.ForceClicked?)
    ensures Quiet(UserDoes(w, e), d)
  {
    if e.device == d {
      hide Disconnect, CloseSession, Place;
    } else {
      hide AcceptsClick;
      QuietOtherClick(w, e, d);
    }
  }

  lemma QuietOtherClick(w: World, e: Event, d: DeviceId)
    requires Quiet(w, d) && (e.QuickClicked? || e.ForceClicked?) && e.device != d
    ensures Quiet(UserDoes(w, e), d)
  {
    hide Enqueue, Disconnect, Quiet, EnqueueFrame, Queued;
    var mode, hasSnapshot := if e.QuickClicked? then Quick else Forced, e.QuickClicked?;
    EnqueueFramed(w, e.device, hasSnapshot, mode, None);
    QuietEnqueue(w, Enqueue(w, e.device, hasSnapshot, mode, None), d, e.device, None);
    QuietDisconnect(w, d, e.device);
  }

  lemma QuietAppears(w: World, d: DeviceId, other: DeviceId, newlyPresent: bool)
    requires Orderly(w) && Quiet(w, d)
    ensures Quiet(DeviceAppears(w, other, newlyPresent), d)
  {
    var v := w.(queue := ResetNotBefore(w.queue, other));
    assert Quiet(v, d);
    hide Quiet, MaybeReconnect, ResetNotBefore;
    QuietReconnect(w, d, other);
    QuietReconnect(v, d, other);
  }

  lemma QuietRemembered(w: World, d: DeviceId, other: DeviceId, discovered: bool)
    requires Orderly(w) && Quiet(w, d) && other in w.desired
    ensures Quiet(RememberOne(w, other, discovered), d)
  {
    var v := w.(pending := w.pending + {other});
    assert Quiet(v, d);
    hide Quiet, MaybeReconnect;
    QuietReconnect(v, d, other);
  }

  lemma QuietClosed(w: World, d: DeviceId, other: DeviceId, generation: nat, link: LinkId, readsClosed: bool)
    requires Quiet(w, d)
    ensures Quiet(LinkClosed(w, other, generation, link, readsClosed), d)
  {
    var v := Muted(w, other);
    CloseEffect(v, other, Some(generation), true);
    hide CloseSession;
  }

  lemma QuietShutdown(w: World, ids: seq<DeviceId>, d: DeviceId)
    requires Orderly(w) && Quiet(w, d)
    ensures Quiet(BeginShutdown(w, ids), d)
  {
    var v := Halted(w);
    CloseAllEffect(v, ids);
    hide CloseAll, PendingOk;
  }

  lemma QuietUser(w: World, e: Event, d: DeviceId)
    requires Orderly(w) && Quiet(w, d) && UserEnabled(w, e) && !AcceptsClick(w, e, d)
    ensures Quiet(UserDoes(w, e), d)
  {
    hide Orderly, Quiet, AcceptsClick, ClickQuick, ClickForce, DeviceAppears, RememberOne, LinkClosed, BeginShutdown,
      Queued, Lists;
    if e.QuickClicked? || e.ForceClicked? {
      QuietClick(w, e, d);
    } else if e.Appeared? {
      QuietAppears(w, d, e.device, e.newlyPresent);
    } else if e.Left? {
      QuietRest(w, DeviceLeaves(w, e.device), d);
    } else if e.Remembered? {
      QuietRemembered(w, d, e.device, e.discovered);
    } else if e.ReconnectSet? {
      QuietRest(w, w.(reconnectEnabled := e.on), d);
    } else if e.ClosedReported? {
      QuietClosed(w, d, e.device, e.generation, e.link, e.readsClosed);
    } else {
      QuietShutdown(w, e.ids, d);
    }
  }

  lemma QuietFrame(w: World, w': World, d: DeviceId)
    requires w.worker.Running? && !w.worker.pc.Returned? && AttemptFrame(w, w') && Quiet(w, d)
    ensures Quiet(w', d)
  {
  }

  lemma QuietHead(w: World, now: nat, d: DeviceId)
    requires Quiet(w, d) && w.worker.Head?
    ensures Quiet(WorkerHead(w, now), d)
  {
    HeadFramed(w, now);
    hide WorkerHead;
  }

  lemma QuietDone(w: World, e: Event, d: DeviceId)
    requires Quiet(w, d) && LoopEnabled(w, e) && e.AttemptDone?
    ensures Quiet(LoopDoes(w, e), d)
  {
    DoneFramed(w, e);
    hide LoopDoes, RetryRequest;
  }

  lemma QuietRest(w: World, w': World, d: DeviceId)
    requires Quiet(w, d) && RestFrame(w, w')
    ensures Quiet(w', d)
  {
  }

  lemma QuietLoop(w: World, e: Event, d: DeviceId)
    requires Quiet(w, d) && LoopEnabled(w, e)
    ensures Quiet(LoopDoes(w, e), d)
  {
    hide Quiet, WorkerHead, WorkerExit, AttemptReturned, AttemptThrew, RestFrame;
    if e.HeadRan? {
      QuietHead(w, e.now, d);
    } else if e.ExitRan? {
      ExitFramed(w);
      QuietRest(w, WorkerExit(w), d);
    } else {
      QuietDone(w, e, d);
    }
  }

  /** A quiet device stays quiet through every step but a click accepted for it. */
  lemma QuietStep(w: World, e: Event, d: DeviceId)
    requires Core(w) && Enabled(w, e) && Quiet(w, d) && !AcceptsClick(w, e, d)
    ensures Quiet(Apply(w, e), d)
  {
    hide Core, Quiet, AcceptsClick, Orderly, AttemptFrame, CalmFrame, RestFrame, Apply, UserEnabled, UserDoes,
      LoopEnabled, LoopDoes, AttemptEnabled, BackgroundEnabled, BackgroundDoes;
    StepByGroup(w, e);
    CoreIsOrderly(w);
    if UserEnabled(w, e) {
      QuietUser(w, e, d);
    } else if LoopEnabled(w, e) {
      QuietLoop(w, e, d);
    } else if BackgroundEnabled(w, e) {
      RestFramed(w, e);
      QuietRest(w, BackgroundDoes(w, e), d);
    } else {
      NotDone(w, e);
      AttemptStaysInFrame(w, e);
      QuietFrame(w, Apply(w, e), d);
    }
  }

  lemma SilencedIsQuiet(w: World, e: Event, d: DeviceId)
    requires Core(w) && Enabled(w, e) && Silences(w, e, d)
    ensures Quiet(Apply(w, e), d)
  {
    hide Enabled, Apply, UserEnabled, LinkClosed, Disconnect, Core, Quiet, Orderly;
    StepByGroup(w, e);
    if e.ClosedReported? {
      SilencedByClose(w, d, e.generation, e.link);
    } else {
      CoreIsOrderly(w);
      SilencedByDisconnect(w, d);
    }
  }

  /** Playback is never reclaimed: after a remote close processed outside recovery, or a
      disconnect, the device has neither a session nor a queued request in any later state,
      whatever watcher events, retries and stale continuations occur, until a Quick or Forced
      request is accepted for it. */
  lemma {:induction false} PlaybackIsNeverReclaimed(ws: seq<World>, es: seq<Event>, i: nat, j: nat, d: DeviceId)
    requires IsRun(ws, es) && i < j < |ws|
    requires Silences(ws[i], es[i], d)
    requires forall k :: i < k < j ==> !AcceptsClick(ws[k], es[k], d)
    ensures d !in ws[j].sessions && !Queued(ws[j].queue, d)
  {
    StaysQuiet(ws, es, i, j, d);
  }

  lemma {:induction false} StaysQuiet(ws: seq<World>, es: seq<Event>, i: nat, j: nat, d: DeviceId)
    requires IsRun(ws, es) && i < j < |ws|
    requires Silences(ws[i], es[i], d)
    requires forall k :: i < k < j ==> !AcceptsClick(ws[k], es[k], d)
    ensures Quiet(ws[j], d)
    decreases j
  {
    hide *;
    RunLength(ws, es);
    var k := j - 1;
    EveryStateIsSafe(ws, es, k);
    StepAt(ws, es, k);
    if k == i {
      SilencedIsQuiet(ws[k], es[k], d);
    } else {
      StaysQuiet(ws, es, i, k, d);
      QuietStep(ws[k], es[k], d);
    }
  }
}
