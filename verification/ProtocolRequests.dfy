/** How requests are answered, taken up and retried. */
module ProtocolRequests {
  // What a click is owed, when a turn takes a request up, and when an attempt gets another try.

  import opened Wrappers
  import opened Numbers
  import opened Records
  import opened Protocol
  import opened ProtocolCore
  import opened ProtocolFrames
  import opened ProtocolPlayback

  // ---------------------------------------------------------------- what a caller of the queue gets

  /** A request made just now for the device: first try, due at once, under the next generation
      and attempt id, to be prepared as the device's sets call for. */
  predicate IsNew(w: World, r: Request, d: DeviceId, mode: Mode) {
    && r.device == d && r.mode == mode && r.notBefore == 0
    && r.generation == Generation(w.generations, d) + 1 && r.attemptId == w.lastAttempt + 1
    && r.retryCount == 0 && r.preparationAttempts == 0 && r.preparationResult.NotRequired?
    && (r.recoverAfterRemoteClose <==> d in w.deferred)
    && (r.prepareBeforeConnect <==> d !in w.prepared)
    && (r.strategy.RestartBluetooth? <==>
          d !in w.prepared || mode.Forced? || (mode.Quick? && d in w.deferred))
  }

  /** Who is turned away: an empty id, anybody once the application stops, an Automatic request
      for a suppressed device or during a recovery, and a device with a session, unless that
      is connected and the request is Forced. */
  predicate Refused(w: World, d: DeviceId, mode: Mode) {
    || d == NO_DEVICE || w.stopping
    || (mode.Automatic? && (d in w.suppressed || w.bluetooth.inProgress))
    || (d in w.sessions && !(mode.Forced? && w.sessions[d].phase.Connected?))
  }

  predicate IsFirst(queue: seq<Request>, d: DeviceId, i: nat) {
    i < |queue| && queue[i].device == d && forall j :: 0 <= j < i ==> queue[j].device != d
  }

  predicate OnlyAt(queue: seq<Request>, queue': seq<Request>, i: nat)
    requires i < |queue|
  {
    |queue'| == |queue| && forall j :: 0 <= j < |queue| && j != i ==> queue'[j] == queue[j]
  }

  /** The request at i is taken over by a click, and else at most gets the snapshot. */
  predicate UpdatesAt(w: World, w': World, i: nat, hasSnapshot: bool, mode: Mode, takesOver: bool)
    requires i < |w.queue|
  {
    && OnlyAt(w.queue, w'.queue, i)
    && w'.worker == w.worker && w'.workerRunning == w.workerRunning
    && var q := w.queue[i];
       var snapshot := hasSnapshot || q.hasSnapshot;
       if takesOver then IsNew(w, w'.queue[i], q.device, mode) && w'.queue[i].hasSnapshot == snapshot
       else w'.queue[i] == q.(hasSnapshot := snapshot)
  }

  /** The device is queued, and only its first request is touched. */
  predicate UpdatesFirst(w: World, w': World, d: DeviceId, hasSnapshot: bool, mode: Mode, takesOver: bool) {
    exists i :: 0 <= i < |w.queue| && IsFirst(w.queue, d, i) && UpdatesAt(w, w', i, hasSnapshot, mode, takesOver)
  }

  /** One request more, at the end, and a worker that runs. */
  predicate AddsLast(w: World, w': World, d: DeviceId, hasSnapshot: bool, mode: Mode, retry: Option<Request>) {
    && |w'.queue| == |w.queue| + 1 && w'.queue[..|w.queue|] == w.queue
    && w'.workerRunning && w'.worker == (if w.workerRunning then w.worker else Head)
    && var r := w'.queue[|w.queue|];
       if retry.Some? then r == retry.value else IsNew(w, r, d, mode) && r.hasSnapshot == hasSnapshot
  }

  /** What an admitted request does to the state around the queue. */
  predicate Admits(w: World, w': World, d: DeviceId, mode: Mode, isNew: bool) {
    && w' == w.(queue := w'.queue, worker := w'.worker, workerRunning := w'.workerRunning,
                generations := w'.generations, lastAttempt := w'.lastAttempt, pending := w'.pending,
                suppressed := w'.suppressed, sessions := w'.sessions, flows := w'.flows, flowTasks := w'.flowTasks)
    && w'.sessions == (if mode.Forced? then w.sessions - {d} else w.sessions) && d !in w'.sessions
    && w'.pending == w.pending - {d}
    && w'.suppressed == (if mode.Automatic? then w.suppressed else w.suppressed - {d})
    && w'.lastAttempt == w.lastAttempt + (if isNew then 1 else 0)
    && w'.generations == (if isNew then w.generations[d := Generation(w.generations, d) + 1] else w.generations)
  }

  /** The answer to a request, for every caller: a retry brings its own request along. */
  predicate Answers(w: World, w': World, d: DeviceId, hasSnapshot: bool, mode: Mode, retry: Option<Request>) {
    var queued := Queued(w.queue, d);
    if Refused(w, d, mode) then w' == w
    else
      && Admits(w, w', d, mode, retry.None? && (!queued || !mode.Automatic?))
      && if queued then UpdatesFirst(w, w', d, hasSnapshot, mode, retry.None? && !mode.Automatic?)
         else AddsLast(w, w', d, hasSnapshot, mode, retry)
  }

  lemma FoundFirst(queue: seq<Request>, d: DeviceId)
    ensures Queued(queue, d) <==> QueueIndex(queue, d) < |queue|
    ensures forall i :: 0 <= i < |queue| ==> (IsFirst(queue, d, i) <==> i == QueueIndex(queue, d))
  {
    hide QueueIndex;
  }

  lemma NewRequestIsNew(w: World, d: DeviceId, hasSnapshot: bool, mode: Mode)
    ensures IsNew(w, FreshRequest(w, d, hasSnapshot, mode), d, mode)
    ensures FreshRequest(w, d, hasSnapshot, mode).hasSnapshot == hasSnapshot
  {
  }

  lemma PromoteAdmits(w: World, i: nat, hasSnapshot: bool, mode: Mode)
    requires i < |w.queue| && w.queue[i].device !in w.sessions
    ensures
      var d := w.queue[i].device;
      Admits(w, Promote(Unsuppressed(w, d, mode), i, hasSnapshot, mode), d, mode, true)
  {
    var d := w.queue[i].device;
    assert w.sessions - {d} == w.sessions;
  }

  lemma UpdatedAt(w: World, w': World, i: nat, r: Request, hasSnapshot: bool, mode: Mode, takesOver: bool)
    requires i < |w.queue| && w'.queue == w.queue[i := r]
    requires w'.worker == w.worker && w'.workerRunning == w.workerRunning
    requires r.hasSnapshot == (hasSnapshot || w.queue[i].hasSnapshot)
    requires if takesOver then IsNew(w, r, w.queue[i].device, mode)
             else r == w.queue[i].(hasSnapshot := r.hasSnapshot)
    ensures UpdatesAt(w, w', i, hasSnapshot, mode, takesOver)
  {
    hide IsNew;
  }

  lemma PromoteQueue(v: World, i: nat, hasSnapshot: bool, mode: Mode)
    requires i < |v.queue|
    ensures
      var w' := Promote(v, i, hasSnapshot, mode);
      && w'.queue == v.queue[i := FreshRequest(v, v.queue[i].device, hasSnapshot || v.queue[i].hasSnapshot, mode)]
      && w'.worker == v.worker && w'.workerRunning == v.workerRunning
  {
    hide FreshRequest;
  }

  lemma PromoteUpdates(w: World, v: World, i: nat, d: DeviceId, hasSnapshot: bool, mode: Mode)
    requires v == Unsuppressed(w, d, mode) && i < |w.queue| && w.queue[i].device == d
    ensures UpdatesAt(w, Promote(v, i, hasSnapshot, mode), i, hasSnapshot, mode, true)
  {
    hide Promote, FreshRequest, IsNew, UpdatesAt;
    var r := FreshRequest(v, d, hasSnapshot || w.queue[i].hasSnapshot, mode);
    NewRequestIsNew(v, d, hasSnapshot || w.queue[i].hasSnapshot, mode);
    NewAnyway(w, v, r, d, mode);
    PromoteQueue(v, i, hasSnapshot, mode);
    UpdatedAt(w, Promote(v, i, hasSnapshot, mode), i, r, hasSnapshot, mode, true);
  }

  lemma TakenOver(w: World, i: nat, d: DeviceId, hasSnapshot: bool, mode: Mode)
    requires IsFirst(w.queue, d, i) && d !in w.sessions
    ensures
      var w' := Promote(Unsuppressed(w, d, mode), i, hasSnapshot, mode);
      Admits(w, w', d, mode, true) && UpdatesFirst(w, w', d, hasSnapshot, mode, true)
  {
    assert w.queue[i].device == d;
    PromoteAdmits(w, i, hasSnapshot, mode);
    PromoteUpdates(w, Unsuppressed(w, d, mode), i, d, hasSnapshot, mode);
    hide IsFirst, Admits, UpdatesAt, Promote, Unsuppressed;
  }

  lemma SnapshotNoted(w: World, v: World, i: nat, d: DeviceId, hasSnapshot: bool, mode: Mode)
    requires v == Unsuppressed(w, d, mode) && i < |w.queue| && IsFirst(w.queue, d, i) && d !in w.sessions
    ensures
      var w' := v.(queue := v.queue[i := v.queue[i].(hasSnapshot := hasSnapshot || v.queue[i].hasSnapshot)]);
      Admits(w, w', d, mode, false) && UpdatesFirst(w, w', d, hasSnapshot, mode, false)
  {
    hide IsFirst, IsNew, UpdatesAt, Admits;
    var r := v.queue[i].(hasSnapshot := hasSnapshot || v.queue[i].hasSnapshot);
    JustQueue(w, v.(queue := v.queue[i := r]), d, mode);
    UpdatedAt(w, v.(queue := v.queue[i := r]), i, r, hasSnapshot, mode, false);
  }

  lemma JustQueue(w: World, w': World, d: DeviceId, mode: Mode)
    requires d !in w.sessions && w' == Unsuppressed(w, d, mode).(queue := w'.queue)
    ensures Admits(w, w', d, mode, false)
  {
    assert w.sessions - {d} == w.sessions;
  }

  lemma RetryAdded(w: World, v: World, d: DeviceId, hasSnapshot: bool, mode: Mode, r: Request)
    requires v == Unsuppressed(w, d, mode) && d !in w.sessions
    ensures
      var w' := Append(v, r);
      Admits(w, w', d, mode, false) && AddsLast(w, w', d, hasSnapshot, mode, Some(r))
  {
    assert w.sessions - {d} == w.sessions;
  }

  lemma NewAdded(w: World, v: World, d: DeviceId, hasSnapshot: bool, mode: Mode)
    requires v == Unsuppressed(w, d, mode) && d !in w.sessions
    ensures
      var newest := FreshRequest(v, d, hasSnapshot, mode);
      var w' := Append(Numbered(v, newest), newest);
      Admits(w, w', d, mode, true) && AddsLast(w, w', d, hasSnapshot, mode, None)
  {
    assert w.sessions - {d} == w.sessions;
    NewRequestIsNew(v, d, hasSnapshot, mode);
    NewAnyway(w, v, FreshRequest(v, d, hasSnapshot, mode), d, mode);
    hide IsNew;
  }

  lemma PlaceAnswers(w: World, d: DeviceId, hasSnapshot: bool, mode: Mode, retry: Option<Request>)
    requires d !in w.sessions
    ensures
      var w' := Place(w, d, hasSnapshot, mode, retry);
      var queued := Queued(w.queue, d);
      && Admits(w, w', d, mode, retry.None? && (!queued || !mode.Automatic?))
      && if queued then UpdatesFirst(w, w', d, hasSnapshot, mode, retry.None? && !mode.Automatic?)
         else AddsLast(w, w', d, hasSnapshot, mode, retry)
  {
    hide Place, Promote, Append, Numbered, FreshRequest, QueueIndex, IsFirst, Queued, Admits, UpdatesFirst, AddsLast;
    var v := Unsuppressed(w, d, mode);
    var i := QueueIndex(w.queue, d);
    PlaceCases(w, v, d, hasSnapshot, mode, retry);
    FoundFirst(w.queue, d);
    if i < |w.queue| {
      if !mode.Automatic? && retry.None? {
        TakenOver(w, i, d, hasSnapshot, mode);
      } else {
        SnapshotNoted(w, v, i, d, hasSnapshot, mode);
      }
    } else if retry.Some? {
      RetryAdded(w, v, d, hasSnapshot, mode, retry.value);
    } else {
      NewAdded(w, v, d, hasSnapshot, mode);
    }
  }

  lemma NewAnyway(w: World, v: World, r: Request, d: DeviceId, mode: Mode)
    requires v == w.(suppressed := v.suppressed, pending := v.pending, sessions := v.sessions, flows := v.flows,
                     flowTasks := v.flowTasks)
    ensures IsNew(w, r, d, mode) <==> IsNew(v, r, d, mode)
  {
  }

  lemma AnsweredByPlace(w: World, d: DeviceId, hasSnapshot: bool, mode: Mode, retry: Option<Request>)
    requires !Refused(w, d, mode) && d !in w.sessions
    ensures Answers(w, Place(w, d, hasSnapshot, mode, retry), d, hasSnapshot, mode, retry)
  {
    PlaceAnswers(w, d, hasSnapshot, mode, retry);
    hide Place, Refused, Admits, UpdatesFirst, AddsLast, Queued;
  }

  /** Every request is answered as its gates say, whatever the state. */
  lemma EnqueueAnswers(w: World, d: DeviceId, hasSnapshot: bool, mode: Mode, retry: Option<Request>)
    ensures Answers(w, Enqueue(w, d, hasSnapshot, mode, retry), d, hasSnapshot, mode, retry)
  {
    if !Refused(w, d, mode) {
      CloseEffect(w, d, None, true);
      hide CloseSession, Place, Answers;
      var v := if mode.Forced? then CloseSession(w, d, None, true) else w;
      AnsweredByPlace(v, d, hasSnapshot, mode, retry);
      AnsweredAfterClose(w, v, Place(v, d, hasSnapshot, mode, retry), d, hasSnapshot, mode, retry);
    }
  }

  lemma UpdatesAnyway(w: World, v: World, w': World, d: DeviceId, hasSnapshot: bool, mode: Mode, takesOver: bool)
    requires v == w.(sessions := v.sessions, flows := v.flows, flowTasks := v.flowTasks)
    requires UpdatesFirst(v, w', d, hasSnapshot, mode, takesOver)
    ensures UpdatesFirst(w, w', d, hasSnapshot, mode, takesOver)
  {
    hide IsFirst, IsNew;
    var i :| 0 <= i < |v.queue| && IsFirst(v.queue, d, i) && UpdatesAt(v, w', i, hasSnapshot, mode, takesOver);
    NewAnyway(w, v, w'.queue[i], w.queue[i].device, mode);
    assert UpdatesAt(w, w', i, hasSnapshot, mode, takesOver);
  }

  lemma AddsAnyway(w: World, v: World, w': World, d: DeviceId, hasSnapshot: bool, mode: Mode, retry: Option<Request>)
    requires v == w.(sessions := v.sessions, flows := v.flows, flowTasks := v.flowTasks)
    requires AddsLast(v, w', d, hasSnapshot, mode, retry)
    ensures AddsLast(w, w', d, hasSnapshot, mode, retry)
  {
    hide IsNew;
    NewAnyway(w, v, w'.queue[|w.queue|], d, mode);
  }

  lemma AdmitsAnyway(w: World, v: World, w': World, d: DeviceId, mode: Mode, isNew: bool)
    requires v == w.(sessions := v.sessions, flows := v.flows, flowTasks := v.flowTasks) && d !in v.sessions
    requires v.sessions == if mode.Forced? then w.sessions - {d} else w.sessions
    requires Admits(v, w', d, mode, isNew)
    ensures Admits(w, w', d, mode, isNew)
  {
  }

  lemma AnsweredAfterClose(w: World, v: World, w': World, d: DeviceId, hasSnapshot: bool, mode: Mode,
                           retry: Option<Request>)
    requires !Refused(w, d, mode)
    requires v == w.(sessions := v.sessions, flows := v.flows, flowTasks := v.flowTasks) && d !in v.sessions
    requires v.sessions == if mode.Forced? then w.sessions - {d} else w.sessions
    requires !Refused(v, d, mode) && Answers(v, w', d, hasSnapshot, mode, retry)
    ensures Answers(w, w', d, hasSnapshot, mode, retry)
  {
    hide Refused, Queued, Admits, UpdatesFirst, AddsLast;
    AdmitsAnyway(w, v, w', d, mode, retry.None? && (!Queued(w.queue, d) || !mode.Automatic?));
    if Queued(w.queue, d) {
      UpdatesAnyway(w, v, w', d, hasSnapshot, mode, retry.None? && !mode.Automatic?);
    } else {
      AddsAnyway(w, v, w', d, hasSnapshot, mode, retry);
    }
  }

  // ---------------------------------------------------------------- clicks and reconnects

  /** The device's one request is the one the click made, and a worker will come to it. */
  predicate ServesClick(w: World, w': World, d: DeviceId, mode: Mode) {
    && Queued(w'.queue, d)
    && (forall i :: 0 <= i < |w'.queue| && w'.queue[i].device == d ==>
          IsNew(w, w'.queue[i], d, mode) && (mode.Quick? ==> w'.queue[i].hasSnapshot))
    && d !in w'.suppressed && d !in w'.pending && d !in w'.sessions && w'.workerRunning && !w'.worker.Idle?
  }

  /** What serving it leans on: one request per device, and a worker where there is a queue. */
  predicate Serving(w: World) {
    && (forall i, j :: 0 <= i < j < |w.queue| ==> w.queue[i].device != w.queue[j].device)
    && (w.queue != [] || w.workerRunning ==> w.workerRunning && !w.worker.Idle?)
  }

  lemma CoreServes(w: World)
    requires Core(w)
    ensures Serving(w)
  {
    hide SessionsOk, WorkerOk, RadioOk, PendingOk, QueuedOk;
  }

  lemma AnsweredClick(w: World, w': World, d: DeviceId, hasSnapshot: bool, mode: Mode)
    requires Serving(w) && !Refused(w, d, mode) && !mode.Automatic? && Answers(w, w', d, hasSnapshot, mode, None)
    requires mode.Quick? ==> hasSnapshot
    ensures ServesClick(w, w', d, mode)
  {
    hide IsNew, Refused;
    if Queued(w.queue, d) {
      var i :| 0 <= i < |w.queue| && IsFirst(w.queue, d, i) && UpdatesAt(w, w', i, hasSnapshot, mode, true);
      assert w'.queue[i].device == d by { NewIsFor(w, w'.queue[i], d, mode); }
    } else {
      NewIsFor(w, w'.queue[|w.queue|], d, mode);
      forall i | 0 <= i < |w.queue| ensures w'.queue[i].device != d {
        assert w'.queue[..|w.queue|][i] == w.queue[i];
      }
    }
  }

  lemma NewIsFor(w: World, r: Request, d: DeviceId, mode: Mode)
    requires IsNew(w, r, d, mode)
    ensures r.device == d && r.mode == mode
  {
  }

  /** User intent is never dropped: after a click that is accepted the device has exactly one
      request, made by this click, first try and due at once, its generation the next one and
      its id the newest; the device is no longer suppressed, and a worker runs. */
  lemma AcceptedClickIsServed(w: World, e: Event, d: DeviceId)
    requires Core(w) && Enabled(w, e) && AcceptsClick(w, e, d)
    ensures ServesClick(w, Apply(w, e), d, if e.QuickClicked? then Quick else Forced)
  {
    hide Core, Enabled, Apply, Serving, Enqueue, Answers, ServesClick, Queued;
    StepByGroup(w, e);
    CoreServes(w);
    if e.QuickClicked? {
      EnqueueAnswers(w, d, true, Quick, None);
      AnsweredClick(w, Enqueue(w, d, true, Quick, None), d, true, Quick);
    } else {
      EnqueueAnswers(w, d, false, Forced, None);
      AnsweredClick(w, Enqueue(w, d, false, Forced, None), d, false, Forced);
    }
  }

  /** Any other click changes nothing, unless it is the first button's on a device that is
      connected or queued. */
  lemma RefusedClickDoesNothing(w: World, e: Event)
    requires (e.QuickClicked? || e.ForceClicked?) && !AcceptsClick(w, e, e.device)
    requires e.QuickClicked? ==> w.stopping || !(e.device in w.sessions || Queued(w.queue, e.device))
    ensures UserDoes(w, e) == w
  {
    hide Queued;
    var mode, hasSnapshot := if e.QuickClicked? then Quick else Forced, e.QuickClicked?;
    EnqueueAnswers(w, e.device, hasSnapshot, mode, None);
    hide Enqueue;
  }

  /** When a device that is back is reconnected. */
  predicate Reconnects(w: World, d: DeviceId) {
    && w.reconnectEnabled && !w.stopping && d in w.pending && d != NO_DEVICE
    && d !in w.sessions && !Queued(w.queue, d) && d !in w.suppressed && !w.bluetooth.inProgress
  }

  /** Then it gets one Automatic request; otherwise nothing happens. */
  predicate ReconnectsOnce(w: World, w': World, d: DeviceId) {
    if Reconnects(w, d) then Admits(w, w', d, Automatic, true) && AddsLast(w, w', d, true, Automatic, None)
    else w' == w
  }

  lemma ReconnectAnswers(w: World, d: DeviceId)
    ensures ReconnectsOnce(w, MaybeReconnect(w, d), d)
  {
    EnqueueAnswers(w, d, true, Automatic, None);
    hide Enqueue, Queued, Admits, AddsLast, UpdatesFirst;
  }

  // ---------------------------------------------------------------- the beginning of a turn

  /** Due, with nobody due earlier, and nobody in front of it due as early. */
  predicate IsNext(queue: seq<Request>, i: nat, now: nat) {
    && i < |queue| && queue[i].notBefore <= now
    && (forall j :: 0 <= j < |queue| ==> queue[i].notBefore <= queue[j].notBefore)
    && (forall j :: 0 <= j < i ==> queue[i].notBefore < queue[j].notBefore)
  }

  /** Exactly that request leaves the queue, and its attempt begins. */
  predicate TakesUpAt(w: World, w': World, i: nat)
    requires i < |w.queue|
  {
    w' == w.(queue := w.queue[..i] + w.queue[i + 1..], worker := Running(w.queue[i], Popped))
  }

  /** The loop is left once the queue is empty or the application stops; a recovery, or a queue with
      nothing due, is waited out; otherwise the next request is taken up. */
  predicate HeadActs(w: World, w': World, now: nat) {
    if w.queue == [] || w.stopping then w' == w.(worker := Exiting)
    else if w.bluetooth.inProgress || (forall i :: 0 <= i < |w.queue| ==> w.queue[i].notBefore > now) then w' == w
    else exists i :: 0 <= i < |w.queue| && IsNext(w.queue, i, now) && TakesUpAt(w, w', i)
  }

  lemma HeadAnswers(w: World, now: nat)
    requires QueueOk(w.queue, w.generations, w.sessions, w.lastAttempt) && w.worker.Head?
    ensures HeadActs(w, WorkerHead(w, now), now)
  {
    hide Distinct;
    if w.queue != [] && !w.stopping && !w.bluetooth.inProgress {
      var i := NextIndex(w.queue);
      assert QueuedOk(w.queue[i], w.generations, w.sessions, w.lastAttempt);
      hide NextIndex, QueueOk;
      if w.queue[i].notBefore <= now {
        assert IsNext(w.queue, i, now) && TakesUpAt(w, WorkerHead(w, now), i);
      }
    }
  }

  // ---------------------------------------------------------------- the end of a turn

  /** The same request once more: no snapshot, one try more, the same generation, id, mode and
      preparation budget, after a delay that doubles from 200 ms up to five minutes. */
  predicate IsRetry(retry: Request, r: Request, now: nat) {
    && retry == r.(hasSnapshot := false, retryCount := retry.retryCount, notBefore := retry.notBefore)
    && retry.notBefore == now + Min(200 * Pow2(r.retryCount), 300000)
    && retry.retryCount == (if r.retryCount < 0xFFFF_FFFF then r.retryCount + 1 else 0xFFFF_FFFF)
  }

  lemma {:induction false} PowersGrow(n: nat)
    requires n >= 11
    ensures Pow2(n) >= 2048
  {
    if n > 11 {
      PowersGrow(n - 1);
    } else {
      assert Pow2(8) == 256;
    }
  }

  lemma RetryIsRetry(r: Request, now: nat)
    ensures IsRetry(RetryRequest(r, now), r, now)
  {
    if r.retryCount >= 11 {
      PowersGrow(r.retryCount);
    } else {
      SmallPowers(r.retryCount);
    }
    hide Pow2;
  }

  lemma {:induction false} SmallPowers(n: nat)
    requires n <= 10
    ensures Pow2(n) <= 1024
  {
    if n > 2 {
      assert Pow2(n) == 2 * Pow2(n - 1);
      assert Pow2(8) == 256;
    }
  }

  predicate TurnOver(w: World) {
    w.worker.Running? && (w.worker.pc.Returned? || w.worker.pc.Threw?)
  }

  /** The answer the turn is judged by: an exception counts as Cancelled once the attempt was
      retired or the application stops. */
  function TurnResult(w: World): AttemptResult
    requires TurnOver(w)
  {
    var r := w.worker.request;
    if w.worker.pc.Returned? then w.worker.pc.result
    else if w.stopping || Generation(w.generations, r.device) != r.generation then Cancelled
    else if w.worker.pc.timedOut then DeadlineExceeded
    else AttemptFailed
  }

  /** Preparing it again is still allowed, or not needed. */
  predicate MayPrepare(r: Request) {
    || r.strategy.Direct?
    || (&& r.preparationAttempts < 2
        && !r.preparationResult.AccessDenied? && !r.preparationResult.TurnOffDenied?
        && !r.preparationResult.TurnOnDenied? && !r.preparationResult.RecoveryCancelled?)
  }

  /** When an attempt gets another try. A thrown attempt's placeholder session does not count. */
  predicate EarnsRetry(w: World)
    requires TurnOver(w)
  {
    var r := w.worker.request;
    var result := TurnResult(w);
    && !result.Success? && !result.Cancelled? && !result.DeniedBySystem?
    && !w.stopping && Generation(w.generations, r.device) == r.generation
    && (r.device !in w.sessions || w.worker.pc.Threw?) && !Queued(w.queue, r.device)
    && MayPrepare(r)
  }

  /** The queue then ends with the retry, and is otherwise left as it was; a failure is noted. */
  predicate EndsTurn(w: World, w': World, r: Request, result: AttemptResult, again: bool, now: nat) {
    && (w'.bluetooth.needed <==> w.bluetooth.needed || !(result.Success? || result.Cancelled?))
    && if again
       then |w'.queue| == |w.queue| + 1 && w'.queue[..|w.queue|] == w.queue && IsRetry(w'.queue[|w.queue|], r, now)
       else w'.queue == w.queue
  }

  /** What judging a turn leans on. */
  predicate Judged(w: World) {
    TurnOver(w) ==>
      && w.worker.request.device != NO_DEVICE && !w.bluetooth.inProgress
      && (w.worker.pc.Threw? && w.worker.request.device in w.sessions
          && Generation(w.generations, w.worker.request.device) == w.worker.request.generation ==>
            w.sessions[w.worker.request.device].generation == w.worker.request.generation)
  }

  lemma CoreJudges(w: World)
    requires Core(w)
    ensures Judged(w)
  {
    CoreStamps(w);
    hide QueueOk, SessionsOk, RunningOk, PendingOk, BudgetOk, ApartFromQueue, PresenceOk;
  }

  /** A result that is neither a success nor final, for a request that nothing has superseded and
      that may still be prepared; an Automatic one also needs its device not to be suppressed. */
  predicate TriesAgain(w: World, r: Request, result: AttemptResult) {
    && !result.Success? && !result.Cancelled? && !result.DeniedBySystem?
    && !w.stopping && Generation(w.generations, r.device) == r.generation
    && r.device !in w.sessions && !Queued(w.queue, r.device) && MayPrepare(r)
    && !(r.mode.Automatic? && r.device in w.suppressed)
  }

  lemma FinishQueues(w: World, r: Request, result: AttemptResult, now: nat)
    requires r.device != NO_DEVICE && !w.bluetooth.inProgress
    ensures EndsTurn(w, FinishAttempt(w, r, result, now), r, result, TriesAgain(w, r, result), now)
  {
    hide Enqueue, RetryRequest, Queued, IsRetry;
    var failed := !result.Success? && !result.Cancelled?;
    var v := w.(worker := Head, bluetooth := if failed then w.bluetooth.(needed := true) else w.bluetooth);
    RetryIsRetry(r, now);
    EnqueueAnswers(v, r.device, false, r.mode, Some(RetryRequest(r, now)));
    hide Generation, IsNew, UpdatesFirst;
  }

  /** An attempt gets another try exactly when its answer is neither a success nor final, nothing
      has superseded it and it may still be prepared; the queue then ends with that retry, and
      is otherwise left as it was. */
  lemma TurnAnswers(w: World, e: Event)
    requires Judged(w) && LoopEnabled(w, e) && e.AttemptDone?
    ensures TurnOver(w)
    ensures
      var r := w.worker.request;
      var again := EarnsRetry(w) && !(r.mode.Automatic? && r.device in w.suppressed);
      EndsTurn(w, LoopDoes(w, e), r, TurnResult(w), again, e.now)
  {
    hide AttemptReturned, AttemptThrew, EndsTurn, EarnsRetry, Judged;
    if w.worker.pc.Returned? {
      ReturnedAnswers(w, e.now);
    } else {
      ThrownAnswers(w, e.now);
    }
  }

  lemma ReturnedAnswers(w: World, now: nat)
    requires Judged(w) && w.worker.Running? && w.worker.pc.Returned?
    ensures
      var r := w.worker.request;
      var again := EarnsRetry(w) && !(r.mode.Automatic? && r.device in w.suppressed);
      EndsTurn(w, AttemptReturned(w, now), r, TurnResult(w), again, now)
  {
    hide FinishAttempt, EndsTurn, MayPrepare, Queued, Generation;
    FinishQueues(w, w.worker.request, w.worker.pc.result, now);
  }

  lemma ThrownAnswers(w: World, now: nat)
    requires Judged(w) && w.worker.Running? && w.worker.pc.Threw?
    ensures
      var r := w.worker.request;
      var again := EarnsRetry(w) && !(r.mode.Automatic? && r.device in w.suppressed);
      EndsTurn(w, AttemptThrew(w, now), r, TurnResult(w), again, now)
  {
    var r := w.worker.request;
    CloseEffect(w, r.device, Some(r.generation), false);
    hide CloseSession, FinishAttempt, EndsTurn, MayPrepare, Queued, Generation;
    var v := CloseSession(w, r.device, Some(r.generation), false);
    var result := ThrownResult(w, r, w.worker.pc.timedOut);
    FinishQueues(v, r, result, now);
    SameTurn(w, v, AttemptThrew(w, now), r, result, now);
  }

  lemma SameTurn(w: World, v: World, w': World, r: Request, result: AttemptResult, now: nat)
    requires v.queue == w.queue && v.bluetooth == w.bluetooth
    ensures forall again :: EndsTurn(v, w', r, result, again, now) == EndsTurn(w, w', r, result, again, now)
  {
  }
}
