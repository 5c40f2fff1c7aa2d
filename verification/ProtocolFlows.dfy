/** Endpoint flows and their background closers: every unfinished flow is reachable from
    the task map through predecessor links, so awaiting the map's entries before Off rules
    out any endpoint cycle during a radio transaction. */
module ProtocolFlows {
  import opened Wrappers
  import opened Records
  import opened Protocol
  import opened ProtocolCore

  // ---------------------------------------------------------------- the invariant

  /** f is t or lies behind t by predecessor links. */
  predicate Reaches(flows: seq<Flow>, t: FlowId, f: FlowId)
    decreases t
  {
    && t < |flows|
    && (t == f || (flows[t].predecessor.Some? && flows[t].predecessor.value < t
                   && Reaches(flows, flows[t].predecessor.value, f)))
  }

  predicate FlowOk(flows: seq<Flow>, x: Flow, i: nat) {
    && (x.predecessor.Some? ==>
          var p := x.predecessor.value;
          p < i && p < |flows| && flows[p].device == x.device && x.stop && (x.closed ==> flows[p].Finished()))
    && (x.closed || x.link.Some? || x.worker.NoWorker? ==> x.stop)
    && (if x.worker.NoWorker? then x.done == x.closed else x.done == x.worker.WorkerDone?)
    && (x.worker.RepairCycle? ==> x.authorized)
    && (x.worker.CleanupCycle? ==> x.closed && x.cleanup)
  }

  predicate ChainsOk(flows: seq<Flow>, flowTasks: map<DeviceId, FlowId>) {
    && (forall d :: d in flowTasks ==> flowTasks[d] < |flows| && flows[flowTasks[d]].device == d)
    && (forall i :: 0 <= i < |flows| ==> FlowOk(flows, flows[i], i))
    && (forall i :: 0 <= i < |flows| && !flows[i].Finished() ==>
          flows[i].device in flowTasks && Reaches(flows, flowTasks[flows[i].device], i))
  }

  /** The attempt still waits for, or died waiting for, the device's old flow. */
  predicate Anchored(worker: Worker, d: DeviceId, t: FlowId) {
    worker.Running? && worker.request.device == d && (worker.pc == WaitingOldFlow(t) || worker.pc.Threw?)
  }

  predicate SessionFlowOk(d: DeviceId, s: Session, flows: seq<Flow>, flowTasks: map<DeviceId, FlowId>, worker: Worker) {
    if s.flow.Some? then
      && d in flowTasks && flowTasks[d] == s.flow.value
      && s.flow.value < |flows| && flows[s.flow.value].device == d
      && !flows[s.flow.value].stop
    else d in flowTasks ==> Anchored(worker, d, flowTasks[d])
  }

  /** A running flow nobody stopped belongs to a connected session. */
  predicate SessionFlowsOk(sessions: map<DeviceId, Session>, flows: seq<Flow>, flowTasks: map<DeviceId, FlowId>,
                           worker: Worker) {
    && (forall d :: d in sessions ==> SessionFlowOk(d, sessions[d], flows, flowTasks, worker))
    && (forall i :: 0 <= i < |flows| && !flows[i].stop && !flows[i].done ==>
          flows[i].device in sessions && sessions[flows[i].device].flow == Some(i))
  }

  predicate Covered(flows: seq<Flow>, tasks: seq<FlowId>, i: FlowId) {
    exists k :: 0 <= k < |tasks| && Reaches(flows, tasks[k], i)
  }

  predicate RecoveryFlowsOk(flows: seq<Flow>, worker: Worker) {
    && (worker.Running? && worker.pc.AwaitingFlows? ==>
          forall i :: 0 <= i < |flows| && flows[i].MayCycle() ==> Covered(flows, worker.pc.tasks, i))
    && (worker.Running? && worker.pc.InTransaction? ==>
          forall i :: 0 <= i < |flows| ==> !flows[i].MayCycle())
  }

  predicate Flows(w: World) {
    && ChainsOk(w.flows, w.flowTasks)
    && SessionFlowsOk(w.sessions, w.flows, w.flowTasks, w.worker)
    && RecoveryFlowsOk(w.flows, w.worker)
  }

  // ---------------------------------------------------------------- chains

  /** A flow is finished only if everything behind it is finished. */
  lemma {:induction false} FinishedBehind(flows: seq<Flow>, flowTasks: map<DeviceId, FlowId>, t: FlowId, f: FlowId)
    requires ChainsOk(flows, flowTasks) && Reaches(flows, t, f) && flows[t].Finished()
    ensures f < |flows| && flows[f].Finished()
    decreases t
  {
    if t != f {
      assert FlowOk(flows, flows[t], t);
      FinishedBehind(flows, flowTasks, flows[t].predecessor.value, f);
    }
  }

  /** Once its task entry is finished or gone, a device has no unfinished flow left. */
  lemma DeviceFinished(flows: seq<Flow>, flowTasks: map<DeviceId, FlowId>, d: DeviceId, f: FlowId)
    requires ChainsOk(flows, flowTasks) && f < |flows| && flows[f].device == d
    requires d in flowTasks ==> flows[flowTasks[d]].Finished()
    ensures flows[f].Finished()
  {
    if !flows[f].Finished() {
      FinishedBehind(flows, flowTasks, flowTasks[d], f);
    }
  }

  predicate SameLinks(flows: seq<Flow>, flows': seq<Flow>) {
    && |flows| <= |flows'|
    && forall i :: 0 <= i < |flows| ==> flows'[i].predecessor == flows[i].predecessor
  }

  lemma {:induction false} ReachesFrame(flows: seq<Flow>, flows': seq<Flow>, t: FlowId, f: FlowId)
    requires SameLinks(flows, flows') && Reaches(flows, t, f)
    ensures Reaches(flows', t, f)
    decreases t
  {
    if t != f {
      ReachesFrame(flows, flows', flows[t].predecessor.value, f);
    }
  }

  lemma CoveredFrame(flows: seq<Flow>, flows': seq<Flow>, tasks: seq<FlowId>, i: FlowId)
    requires SameLinks(flows, flows') && Covered(flows, tasks, i)
    ensures Covered(flows', tasks, i)
  {
    var k :| 0 <= k < |tasks| && Reaches(flows, tasks[k], i);
    ReachesFrame(flows, flows', tasks[k], i);
  }

  /** Replacing one flow by a later stage of itself. */
  predicate Advances(x: Flow, y: Flow) {
    && y.device == x.device && y.predecessor == x.predecessor
    && (x.Finished() ==> y.Finished())
  }

  lemma AdvanceChains(flows: seq<Flow>, flowTasks: map<DeviceId, FlowId>, f: FlowId, y: Flow)
    requires ChainsOk(flows, flowTasks) && f < |flows| && Advances(flows[f], y) && FlowOk(flows, y, f)
    ensures ChainsOk(flows[f := y], flowTasks)
  {
    var flows' := flows[f := y];
    forall i | 0 <= i < |flows'| ensures FlowOk(flows', flows'[i], i) {
      assert FlowOk(flows, flows[i], i);
    }
    forall i | 0 <= i < |flows'| && !flows'[i].Finished()
      ensures flows'[i].device in flowTasks && Reaches(flows', flowTasks[flows'[i].device], i)
    {
      ReachesFrame(flows, flows', flowTasks[flows[i].device], i);
    }
  }

  /** A new entry in front of the device's chain. */
  lemma AppendChains(flows: seq<Flow>, flowTasks: map<DeviceId, FlowId>, y: Flow)
    requires ChainsOk(flows, flowTasks)
    requires FlowOk(flows, y, |flows|)
    requires y.device in flowTasks ==>
      y.predecessor == Some(flowTasks[y.device]) || flows[flowTasks[y.device]].Finished()
    ensures ChainsOk(flows + [y], flowTasks[y.device := |flows|])
  {
    var n := |flows|;
    var flows' := flows + [y];
    var flowTasks' := flowTasks[y.device := n];
    assert flows'[n] == y;
    forall i | 0 <= i < |flows'| ensures FlowOk(flows', flows'[i], i) {
      if i < n {
        assert FlowOk(flows, flows[i], i);
      }
    }
    forall i | 0 <= i < |flows'| && !flows'[i].Finished()
      ensures flows'[i].device in flowTasks' && Reaches(flows', flowTasks'[flows'[i].device], i)
    {
      if i < n {
        if flows[i].device == y.device && flows[flowTasks[y.device]].Finished() {
          DeviceFinished(flows, flowTasks, y.device, i);
        }
        ReachesFrame(flows, flows', flowTasks[flows[i].device], i);
      }
    }
  }

  /** Dropping the entry of a device whose entry is finished. */
  lemma DropChains(flows: seq<Flow>, flowTasks: map<DeviceId, FlowId>, d: DeviceId)
    requires ChainsOk(flows, flowTasks)
    requires d in flowTasks ==> flows[flowTasks[d]].Finished()
    ensures ChainsOk(flows, flowTasks - {d})
  {
    forall i | 0 <= i < |flows| && !flows[i].Finished()
      ensures flows[i].device in flowTasks - {d} && Reaches(flows, (flowTasks - {d})[flows[i].device], i)
    {
      if flows[i].device == d {
        DeviceFinished(flows, flowTasks, d, i);
      }
    }
  }

  // ---------------------------------------------------------------- closing a session

  predicate Waits(worker: Worker) {
    worker.Running? && (worker.pc.WaitingOldFlow? || worker.pc.Threw?)
  }

  predicate Awaits(worker: Worker) {
    worker.Running? && (worker.pc.AwaitingFlows? || worker.pc.InTransaction?)
  }

  /** Recovery has marked itself before the flows are awaited. */
  predicate Marked(w: World) {
    Awaits(w.worker) ==> w.bluetooth.inProgress
  }

  /** A worker that runs says so. */
  predicate Staffed(w: World) {
    w.workerRunning <==> !w.worker.Idle?
  }

  /** What of the first invariant the flows lean on, with an attempt's session being its own. */
  predicate Footing(w: World) {
    && Marked(w) && Staffed(w)
    && (w.stopping ==> w.sessions == map[])
    && (w.worker.Running? ==>
          var r := w.worker.request;
          && (w.worker.pc.Popped? ==> r.device !in w.sessions)
          && (w.worker.pc.Underway() && r.device in w.sessions ==>
                w.sessions[r.device].generation == r.generation && w.sessions[r.device].flow.None?))
  }

  lemma CoreIsFooting(w: World)
    requires Core(w)
    ensures Footing(w)
  {
    hide QueueOk, SessionsOk, PendingOk, BudgetOk, ApartFromQueue;
  }

  lemma RetiredChains(w: World, d: DeviceId, cleanAudio: bool)
    requires Flows(w) && d in w.sessions
    ensures
      var (f, y) := RetiredFlow(w, d, cleanAudio);
      ChainsOk(Put(w.flows, f, y), w.flowTasks[d := f])
  {
    var (f, y) := RetiredFlow(w, d, cleanAudio);
    assert SessionFlowOk(d, w.sessions[d], w.flows, w.flowTasks, w.worker);
    if StillRuns(w.flows, w.sessions[d].flow) {
      assert FlowOk(w.flows, w.flows[f], f);
      assert w.flowTasks[d := f] == w.flowTasks;
      AdvanceChains(w.flows, w.flowTasks, f, y);
    } else {
      AppendChains(w.flows, w.flowTasks, y);
    }
  }

  lemma RetiredSessions(w: World, d: DeviceId, cleanAudio: bool)
    requires Flows(w) && d in w.sessions
    ensures
      var (f, y) := RetiredFlow(w, d, cleanAudio);
      SessionFlowsOk(w.sessions - {d}, Put(w.flows, f, y), w.flowTasks[d := f], w.worker)
  {
    var (f, y) := RetiredFlow(w, d, cleanAudio);
    var flows' := Put(w.flows, f, y);
    assert SessionFlowOk(d, w.sessions[d], w.flows, w.flowTasks, w.worker);
    forall x | x in w.sessions - {d}
      ensures SessionFlowOk(x, w.sessions[x], flows', w.flowTasks[d := f], w.worker)
    {
      assert SessionFlowOk(x, w.sessions[x], w.flows, w.flowTasks, w.worker);
    }
  }

  lemma RetiredRecovery(w: World, d: DeviceId, skip: bool)
    requires Flows(w) && d in w.sessions && Marked(w)
    ensures
      var (f, y) := RetiredFlow(w, d, CleansAudio(w, d, skip));
      RecoveryFlowsOk(Put(w.flows, f, y), w.worker)
  {
    var (f, y) := RetiredFlow(w, d, CleansAudio(w, d, skip));
    var flows' := Put(w.flows, f, y);
    assert SessionFlowOk(d, w.sessions[d], w.flows, w.flowTasks, w.worker);
    if StillRuns(w.flows, w.sessions[d].flow) {
      assert FlowOk(w.flows, w.flows[f], f);
    }
    if w.worker.Running? && w.worker.pc.AwaitingFlows? {
      assert SameLinks(w.flows, flows');
      forall i | 0 <= i < |flows'| && flows'[i].MayCycle() ensures Covered(flows', w.worker.pc.tasks, i) {
        CoveredFrame(w.flows, flows', w.worker.pc.tasks, i);
      }
    }
  }

  lemma CloseFlows(w: World, d: DeviceId, generation: Option<nat>, skip: bool)
    requires Flows(w) && Marked(w)
    ensures Flows(CloseSession(w, d, generation, skip))
  {
    hide ChainsOk, SessionFlowsOk, RecoveryFlowsOk, RetiredFlow, CleansAudio, Put;
    if Closes(w, d, generation) {
      RetiredChains(w, d, CleansAudio(w, d, skip));
      RetiredSessions(w, d, CleansAudio(w, d, skip));
      RetiredRecovery(w, d, skip);
    }
  }

  lemma {:induction false} CloseAllFlows(w: World, ids: seq<DeviceId>)
    requires Flows(w) && Marked(w)
    ensures Flows(CloseAll(w, ids))
    decreases |ids|
  {
    hide Flows, CloseSession;
    if ids != [] {
      CloseFlows(w, ids[0], None, false);
      CloseEffect(w, ids[0], None, false);
      CloseAllFlows(CloseSession(w, ids[0], None, false), ids[1..]);
    }
  }

  // ---------------------------------------------------------------- steps that leave flows alone

  /** A worker that no session leans on can be replaced by any other. */
  lemma SwapWorker(w: World, worker': Worker)
    requires Flows(w) && !Waits(w.worker)
    requires !Awaits(worker') || (w.worker.Running? && worker'.Running? && worker'.pc == w.worker.pc)
    ensures SessionFlowsOk(w.sessions, w.flows, w.flowTasks, worker')
    ensures RecoveryFlowsOk(w.flows, worker')
  {
    forall d | d in w.sessions ensures SessionFlowOk(d, w.sessions[d], w.flows, w.flowTasks, worker') {
      assert SessionFlowOk(d, w.sessions[d], w.flows, w.flowTasks, w.worker);
    }
  }

  /** What placing a request cannot touch. */
  predicate SameMachinery(w: World, w': World) {
    && w'.sessions == w.sessions && w'.flows == w.flows && w'.flowTasks == w.flowTasks
    && w'.creations == w.creations && w'.slots == w.slots && w'.links == w.links && w'.live == w.live
    && w'.stopping == w.stopping && w'.bluetooth == w.bluetooth && w'.desired == w.desired
    && w'.deferred == w.deferred && w'.prepared == w.prepared && w'.reconnectEnabled == w.reconnectEnabled
    && (w'.worker == w.worker || (!w.workerRunning && w'.worker.Head?))
  }

  lemma PlaceMachinery(w: World, d: DeviceId, hasSnapshot: bool, mode: Mode, retry: Option<Request>)
    ensures SameMachinery(w, Place(w, d, hasSnapshot, mode, retry))
  {
    var v := Unsuppressed(w, d, mode);
    PlaceCases(w, v, d, hasSnapshot, mode, retry);
    var i := QueueIndex(v.queue, d);
    var newest := FreshRequest(v, d, hasSnapshot, mode);
    hide FreshRequest, Place, QueueIndex;
    if i < |v.queue| {
      PromoteMachinery(v, i, hasSnapshot, mode);
      hide Promote;
    } else {
      hide Append;
    }
  }

  lemma PromoteMachinery(w: World, i: nat, hasSnapshot: bool, mode: Mode)
    requires i < |w.queue|
    ensures SameMachinery(w, Promote(w, i, hasSnapshot, mode))
  {
    hide FreshRequest;
  }

  lemma PlaceFlows(w: World, w': World)
    requires Flows(w) && Marked(w) && Staffed(w) && SameMachinery(w, w')
    ensures Flows(w')
  {
    if w'.worker != w.worker {
      SwapWorker(w, w'.worker);
    }
  }

  lemma EnqueueFlows(w: World, d: DeviceId, hasSnapshot: bool, mode: Mode, retry: Option<Request>)
    requires Flows(w) && Marked(w) && Staffed(w)
    ensures Flows(Enqueue(w, d, hasSnapshot, mode, retry))
  {
    if Admitted(w, d, mode) {
      var v := if mode.Forced? then CloseSession(w, d, None, true) else w;
      CloseFlows(w, d, None, true);
      CloseEffect(w, d, None, true);
      PlaceMachinery(v, d, hasSnapshot, mode, retry);
      hide CloseSession, Place, Flows;
      PlaceFlows(v, Place(v, d, hasSnapshot, mode, retry));
    }
  }

  lemma DisconnectFlows(w: World, d: DeviceId)
    requires Flows(w) && Marked(w)
    ensures Flows(Disconnect(w, d))
  {
    hide CloseSession;
    var v := Withdrawn(w, d);
    CloseFlows(v, d, None, false);
  }

  lemma MaybeReconnectFlows(w: World, d: DeviceId)
    requires Flows(w) && Marked(w) && Staffed(w)
    ensures Flows(MaybeReconnect(w, d))
  {
    hide Enqueue, Flows, Core;
    EnqueueFlows(w, d, true, Automatic, None);
  }

  lemma UserFlows(w: World, e: Event)
    requires Flows(w) && Footing(w) && UserEnabled(w, e)
    ensures Flows(UserDoes(w, e))
  {
    hide Enqueue, Disconnect, DeviceAppears, RememberOne, LinkClosed, BeginShutdown, Flows, Lists;
    if e.QuickClicked? {
      DisconnectFlows(w, e.device);
      EnqueueFlows(w, e.device, true, Quick, None);
    } else if e.ForceClicked? {
      EnqueueFlows(w, e.device, false, Forced, None);
    } else if e.Appeared? {
      AppearsFlows(w, e.device, e.newlyPresent);
    } else if e.Left? {
      SameFlows(w, DeviceLeaves(w, e.device));
    } else if e.Remembered? {
      RememberFlows(w, e.device, e.discovered);
    } else if e.ReconnectSet? {
      SameFlows(w, w.(reconnectEnabled := e.on));
    } else if e.ClosedReported? {
      LinkClosedFlows(w, e.device, e.generation, e.link, e.readsClosed);
    } else {
      ShutdownFlows(w, e.ids);
    }
  }

  lemma SameFlows(w: World, w': World)
    requires Flows(w) && w'.sessions == w.sessions && w'.flows == w.flows && w'.flowTasks == w.flowTasks
      && w'.worker == w.worker
    ensures Flows(w')
  {
  }

  lemma AppearsFlows(w: World, d: DeviceId, newlyPresent: bool)
    requires Flows(w) && Marked(w) && Staffed(w)
    ensures Flows(DeviceAppears(w, d, newlyPresent))
  {
    hide Flows, MaybeReconnect, ResetNotBefore;
    var v := w.(queue := ResetNotBefore(w.queue, d));
    SameFlows(w, v);
    MaybeReconnectFlows(w, d);
    MaybeReconnectFlows(v, d);
  }

  lemma RememberFlows(w: World, d: DeviceId, discovered: bool)
    requires Flows(w) && Marked(w) && Staffed(w)
    ensures Flows(RememberOne(w, d, discovered))
  {
    hide Flows, MaybeReconnect;
    var v := w.(pending := w.pending + {d});
    SameFlows(w, v);
    MaybeReconnectFlows(v, d);
  }

  lemma LinkClosedFlows(w: World, d: DeviceId, generation: nat, link: LinkId, readsClosed: bool)
    requires Flows(w) && Marked(w)
    ensures Flows(LinkClosed(w, d, generation, link, readsClosed))
  {
    var v := Muted(w, d);
    hide CloseSession, Flows;
    SameFlows(w, v);
    CloseFlows(v, d, Some(generation), true);
  }

  lemma ShutdownFlows(w: World, ids: seq<DeviceId>)
    requires Flows(w) && Marked(w)
    ensures Flows(BeginShutdown(w, ids))
  {
    var v := Halted(w);
    hide CloseAll, Flows;
    SameFlows(w, v);
    CloseAllFlows(v, ids);
  }

  // ---------------------------------------------------------------- the worker's steps

  lemma HeadEffect(w: World, now: nat)
    requires w.worker.Head?
    ensures
      var w' := WorkerHead(w, now);
      && w' == w.(queue := w'.queue, worker := w'.worker)
      && (w'.worker.Exiting? || w'.worker.Head? || (w'.worker.Running? && w'.worker.pc.Popped?))
  {
    hide NextIndex, RemoveAt, Generation;
    if w.queue == [] || w.stopping || w.bluetooth.inProgress {
    } else {
      var r := w.queue[NextIndex(w.queue)];
      if r.notBefore > now {
      } else if Generation(w.generations, r.device) != r.generation || r.device in w.sessions {
      } else {
      }
    }
  }

  lemma HeadFlows(w: World, now: nat)
    requires Flows(w) && w.worker.Head?
    ensures Flows(WorkerHead(w, now))
  {
    HeadEffect(w, now);
    var w' := WorkerHead(w, now);
    SwapWorker(w, w'.worker);
    hide WorkerHead, SessionFlowsOk, RecoveryFlowsOk, ChainsOk;
  }

  lemma ExitFlows(w: World)
    requires Flows(w) && w.worker.Exiting?
    ensures Flows(WorkerExit(w))
  {
    hide SessionFlowsOk, RecoveryFlowsOk, ChainsOk;
    if w.queue != [] && !w.stopping {
      SwapWorker(w, Head);
    } else {
      SwapWorker(w, Idle);
    }
  }

  lemma FinishFlows(w: World, r: Request, result: AttemptResult, now: nat)
    requires Flows(w) && w.workerRunning && w.worker.Running? && w.worker.pc.Returned?
    ensures Flows(FinishAttempt(w, r, result, now))
  {
    var failed := !result.Success? && !result.Cancelled?;
    var v := w.(worker := Head, bluetooth := if failed then w.bluetooth.(needed := true) else w.bluetooth);
    SwapWorker(w, Head);
    assert Flows(v);
    hide Enqueue, Flows, CanRetryConnection, RetryRequest;
    EnqueueFlows(v, r.device, false, r.mode, Some(RetryRequest(r, now)));
  }

  lemma LoopFlows(w: World, e: Event)
    requires Flows(w) && Footing(w) && LoopEnabled(w, e)
    ensures Flows(LoopDoes(w, e))
  {
    hide Flows, WorkerHead, WorkerExit, AttemptThrew, FinishAttempt;
    if e.HeadRan? {
      HeadFlows(w, e.now);
    } else if e.ExitRan? {
      ExitFlows(w);
    } else if w.worker.pc.Returned? {
      FinishFlows(w, w.worker.request, w.worker.pc.result, e.now);
    } else {
      ThrewFlows(w, e.now);
    }
  }

  lemma ThrewFlows(w: World, now: nat)
    requires Flows(w) && Footing(w) && w.worker.Running? && w.worker.pc.Threw?
    ensures Flows(AttemptThrew(w, now))
  {
    var r := w.worker.request;
    var result := ThrewReturns(w, now);
    var v := CloseAndReturn(w, r, result);
    CloseEffect(w, r.device, Some(r.generation), false);
    hide Flows, AttemptThrew, FinishAttempt, CloseSession;
    ReturnFlows(w, r, result);
    FinishFlows(v, r, result, now);
  }

  /** Returning after the attempt's session is gone. */
  lemma ReturnFlows(w: World, r: Request, result: AttemptResult)
    requires Flows(w) && Footing(w) && w.worker.Running? && w.worker.request == r && w.worker.pc.Underway()
    ensures Flows(CloseAndReturn(w, r, result))
  {
    var v := CloseSession(w, r.device, Some(r.generation), false);
    CloseFlows(w, r.device, Some(r.generation), false);
    CloseEffect(w, r.device, Some(r.generation), false);
    hide CloseSession;
    GoneFlows(v, r, Returned(result));
  }

  lemma GoneFlows(v: World, r: Request, pc': Pc)
    requires Flows(v) && v.worker.Running? && v.worker.request == r && r.device !in v.sessions
    requires !pc'.AwaitingFlows? && !pc'.InTransaction?
    ensures Flows(At(v, r, pc'))
  {
    forall d | d in v.sessions ensures SessionFlowOk(d, v.sessions[d], v.flows, v.flowTasks, Running(r, pc')) {
      assert SessionFlowOk(d, v.sessions[d], v.flows, v.flowTasks, v.worker);
    }
  }

  /** An ordinary move: the attempt's session stays and no task entry is involved. */
  lemma MoveFlows(w: World, w': World)
    requires Flows(w) && w.worker.Running? && !Waits(w.worker)
    requires w'.flows == w.flows && w'.flowTasks == w.flowTasks && w'.worker.Running? && !Awaits(w'.worker)
    requires w'.sessions.Keys == w.sessions.Keys
    requires forall d :: d in w.sessions ==> w'.sessions[d].flow == w.sessions[d].flow
    ensures Flows(w')
  {
    forall d | d in w'.sessions ensures SessionFlowOk(d, w'.sessions[d], w'.flows, w'.flowTasks, w'.worker) {
      assert SessionFlowOk(d, w.sessions[d], w.flows, w.flowTasks, w.worker);
    }
  }

  lemma BeginPreparationEffect(w: World, r: Request)
    ensures
      var w' := BeginPreparation(w, r);
      && w' == w.(prepared := w'.prepared, worker := w'.worker)
      && w'.worker.Running? && w'.worker.request.device == r.device && !Awaits(w'.worker) && !Waits(w'.worker)
  {
    if r.strategy.Direct? {
    } else {
    }
  }

  lemma BeginsFlows(w: World)
    requires Flows(w) && Footing(w) && w.worker.Running? && w.worker.pc.Popped?
    ensures Flows(AttemptBegins(w))
  {
    var r := w.worker.request;
    assert r.device !in w.sessions;
    AttemptBeginsCases(w);
    hide Flows, Footing, AttemptBegins, BeginPreparation, SlotBusy;
    var w' := AttemptBegins(w);
    if w' == Return(w, r, Cancelled) {
      GoneFlows(w, r, Returned(Cancelled));
    } else if w' == Return(w, r, DeviceUnavailable) {
      GoneFlows(w, r, Returned(DeviceUnavailable));
    } else {
      BeginPreparationEffect(Emplaced(w, r), r);
      EmplaceFlows(w, w');
    }
  }

  lemma EmplaceFlows(w: World, w': World)
    requires Flows(w) && Footing(w) && w.worker.Running? && w.worker.pc.Popped?
    requires w'.flows == w.flows && w'.flowTasks == w.flowTasks && w'.worker.Running?
    requires w'.worker.request.device == w.worker.request.device && !Awaits(w'.worker)
    requires exists s :: w'.sessions == w.sessions[w.worker.request.device := s] && s.flow.None?
    requires w.worker.request.device in w.flowTasks ==>
      w'.worker.pc == WaitingOldFlow(w.flowTasks[w.worker.request.device])
    ensures Flows(w')
  {
    forall d | d in w'.sessions ensures SessionFlowOk(d, w'.sessions[d], w'.flows, w'.flowTasks, w'.worker) {
      if d in w.sessions {
        assert SessionFlowOk(d, w.sessions[d], w.flows, w.flowTasks, w.worker);
      }
    }
  }

  lemma OldFlowFlows(w: World)
    requires Flows(w) && Footing(w) && w.worker.Running? && w.worker.pc.WaitingOldFlow?
      && FlowAwaitedAt(w.flows, w.worker.pc.flow)
    ensures Flows(OldFlowFinished(w))
  {
    hide BeginPreparation;
    var r := w.worker.request;
    if !IsCurrent(w, r, None) || w.stopping {
      GoneFlows(w, r, Returned(Cancelled));
    } else {
      assert SessionFlowOk(r.device, w.sessions[r.device], w.flows, w.flowTasks, w.worker);
      DropChains(w.flows, w.flowTasks, r.device);
      BeginPreparationEffect(w.(flowTasks := w.flowTasks - {r.device}), r);
      DroppedFlows(w, BeginPreparation(w.(flowTasks := w.flowTasks - {r.device}), r));
    }
  }

  lemma DroppedFlows(w: World, w': World)
    requires Flows(w) && w.worker.Running? && w.worker.pc.WaitingOldFlow?
    requires w.worker.request.device in w.sessions && w.sessions[w.worker.request.device].flow.None?
    requires w'.sessions == w.sessions && w'.flows == w.flows && w'.flowTasks == w.flowTasks - {w.worker.request.device}
    requires w'.worker.Running? && !Awaits(w'.worker) && ChainsOk(w'.flows, w'.flowTasks)
    ensures Flows(w')
  {
    forall d | d in w'.sessions ensures SessionFlowOk(d, w'.sessions[d], w'.flows, w'.flowTasks, w'.worker) {
      assert SessionFlowOk(d, w.sessions[d], w.flows, w.flowTasks, w.worker);
    }
  }

  lemma OuterThrewFlows(w: World, timedOut: bool)
    requires Flows(w) && w.worker.Running? && (w.worker.pc.WaitingOldFlow? || w.worker.pc.LookingUp?)
    ensures Flows(At(w, w.worker.request, Threw(timedOut)))
  {
    forall d | d in w.sessions
      ensures SessionFlowOk(d, w.sessions[d], w.flows, w.flowTasks, Running(w.worker.request, Threw(timedOut)))
    {
      assert SessionFlowOk(d, w.sessions[d], w.flows, w.flowTasks, w.worker);
    }
  }

  // ---------------------------------------------------------------- recovery

  /** The snapshot of the task map covers every flow that may still cycle. */
  lemma SnapshotCovers(w: World, tasks: seq<FlowId>)
    requires Flows(w) && Lists(tasks, w.flowTasks.Values)
    ensures forall i :: 0 <= i < |w.flows| && w.flows[i].MayCycle() ==> Covered(w.flows, tasks, i)
  {
    forall i | 0 <= i < |w.flows| && w.flows[i].MayCycle() ensures Covered(w.flows, tasks, i) {
      assert FlowOk(w.flows, w.flows[i], i);
      var t := w.flowTasks[w.flows[i].device];
      assert t in w.flowTasks.Values;
      assert t in tasks;
      var k :| 0 <= k < |tasks| && tasks[k] == t;
      assert Reaches(w.flows, tasks[k], i);
    }
  }

  lemma RadioFoundFlows(w: World, ids: seq<DeviceId>, tasks: seq<FlowId>)
    requires Flows(w) && Footing(w) && RadioAnswers(w, ids, tasks)
    ensures Flows(RadioFound(w, ids, tasks))
  {
    CloseAllFlows(w, ids);
    var v := if w.worker.pc.allow then CloseAll(w, ids) else w;
    CloseAllEffect(w, ids);
    hide CloseAll, Flows;
    SnapshotCovers(v, tasks);
    AwaitingStarts(v, w.worker.pc.allow, tasks);
  }

  lemma AwaitingStarts(v: World, allow: bool, tasks: seq<FlowId>)
    requires Flows(v) && v.worker.Running? && v.worker.pc.FindingRadio?
    requires forall i :: 0 <= i < |v.flows| && v.flows[i].MayCycle() ==> Covered(v.flows, tasks, i)
    ensures Flows(At(v, v.worker.request, AwaitingFlows(allow, tasks)))
  {
    forall d | d in v.sessions
      ensures SessionFlowOk(d, v.sessions[d], v.flows, v.flowTasks,
                            Running(v.worker.request, AwaitingFlows(allow, tasks)))
    {
      assert SessionFlowOk(d, v.sessions[d], v.flows, v.flowTasks, v.worker);
    }
  }

  /** A finished task has no flow behind it that may cycle. */
  lemma AwaitedFlows(w: World)
    requires Flows(w) && w.worker.Running? && w.worker.pc.AwaitingFlows? && w.worker.pc.tasks != []
    requires FlowAwaitedAt(w.flows, w.worker.pc.tasks[0])
    ensures Flows(At(w, w.worker.request, AwaitingFlows(w.worker.pc.allow, w.worker.pc.tasks[1..])))
  {
    var tasks := w.worker.pc.tasks;
    forall i | 0 <= i < |w.flows| && w.flows[i].MayCycle() ensures Covered(w.flows, tasks[1..], i) {
      var k :| 0 <= k < |tasks| && Reaches(w.flows, tasks[k], i);
      assert FlowOk(w.flows, w.flows[i], i);
      if k == 0 {
        FinishedBehind(w.flows, w.flowTasks, tasks[0], i);
      } else {
        assert tasks[1..][k - 1] == tasks[k];
      }
    }
    assert !Waits(w.worker);
    forall d | d in w.sessions
      ensures SessionFlowOk(d, w.sessions[d], w.flows, w.flowTasks,
                            Running(w.worker.request, AwaitingFlows(w.worker.pc.allow, tasks[1..])))
    {
      assert SessionFlowOk(d, w.sessions[d], w.flows, w.flowTasks, w.worker);
    }
  }

  lemma TransactionFlows(w: World)
    requires Flows(w) && w.worker.Running? && w.worker.pc.AwaitingFlows? && w.worker.pc.tasks == []
    ensures Flows(At(w, w.worker.request, InTransaction(w.worker.pc.allow)))
  {
    forall d | d in w.sessions
      ensures SessionFlowOk(d, w.sessions[d], w.flows, w.flowTasks,
                            Running(w.worker.request, InTransaction(w.worker.pc.allow)))
    {
      assert SessionFlowOk(d, w.sessions[d], w.flows, w.flowTasks, w.worker);
    }
  }

  lemma GateEffect(w: World)
    requires w.worker.Running? && w.worker.pc.EnteringRecovery?
    ensures
      var w' := RecoveryGate(w);
      && w' == w.(bluetooth := w'.bluetooth, worker := w'.worker)
      && w'.worker.Running? && SameAttempt(w.worker.request, w'.worker.request) && !Awaits(w'.worker)
  {
    var v := w.(bluetooth := w.bluetooth.(needed := true));
    EndsEffect(v, w.worker.request, NotRequired);
    EndsEffect(v, w.worker.request, UnexpectedFailure);
    hide HasLivePlayback, PreparationEnds;
  }

  lemma EndsEffect(w: World, r: Request, outcome: Recovery)
    ensures
      var w' := PreparationEnds(w, r, outcome);
      && w' == w.(worker := w'.worker) && w'.worker.Running? && SameAttempt(r, w'.worker.request)
      && w'.worker.pc == AfterRecovery(outcome)
  {
  }

  lemma FinishedEffect(w: World)
    requires w.worker.Running? && w.worker.pc.FinishingRecovery?
    ensures
      var w' := RecoveryFinished(w);
      && w' == w.(deferred := w'.deferred, prepared := w'.prepared, bluetooth := w'.bluetooth, worker := w'.worker)
      && w'.worker.Running? && SameAttempt(w.worker.request, w'.worker.request)
      && w'.worker.pc == AfterRecovery(w.worker.pc.outcome) && w'.deferred <= w.deferred
  {
    hide Prepared, PreparationEnds;
    var r := w.worker.request;
    var outcome := w.worker.pc.outcome;
    if outcome.Succeeded? {
      PreparedEffect(w, r.device);
      LeftEffect(Prepared(w, r.device), r, outcome);
    } else {
      LeftEffect(w, r, outcome);
    }
  }

  lemma LeftEffect(w: World, r: Request, outcome: Recovery)
    ensures
      var w' := PreparationEnds(w.(bluetooth := w.bluetooth.(needed := !outcome.Succeeded?, inProgress := false)), r,
                                outcome);
      && w' == w.(bluetooth := w'.bluetooth, worker := w'.worker)
      && w'.worker.Running? && SameAttempt(r, w'.worker.request) && w'.worker.pc == AfterRecovery(outcome)
  {
    hide PreparationEnds;
    EndsEffect(w.(bluetooth := w.bluetooth.(needed := !outcome.Succeeded?, inProgress := false)), r, outcome);
  }

  lemma PreparedEffect(w: World, d: DeviceId)
    ensures
      var w' := Prepared(w, d);
      w' == w.(deferred := w'.deferred, prepared := w'.prepared) && w'.deferred <= w.deferred
  {
  }

  lemma GateFlows(w: World)
    requires Flows(w) && w.worker.Running? && w.worker.pc.EnteringRecovery?
    ensures Flows(RecoveryGate(w))
  {
    GateEffect(w);
    hide Flows, RecoveryGate;
    MoveFlows(w, RecoveryGate(w));
  }

  lemma RecoveryFlows(w: World, e: Event)
    requires Flows(w) && Footing(w) && RecoveryEnabled(w, e)
    ensures Flows(RecoveryDoes(w, e))
  {
    hide Flows, Footing, RadioTransaction.Outcome, RadioFound, RadioAnswers, FlowAwaitedAt, RecoveryGate,
      RecoveryFinished;
    if e.GateRan? {
      GateFlows(w);
    } else if e.RadioResolved? {
      RadioFoundFlows(w, e.ids, e.tasks);
    } else if e.FlowAwaited? {
      AwaitedFlows(w);
    } else if e.TransactionBegan? {
      TransactionFlows(w);
    } else if e.RecoveryEnded? {
      FinishedEffect(w);
      MoveFlows(w, RecoveryFinished(w));
    } else {
      MoveFlows(w, RecoveryDoes(w, e));
    }
  }

  // ---------------------------------------------------------------- links and the commit

  /** The session is relabelled and may get a flow of its own. */
  lemma CommitEffect(w: World, r: Request, flowStarts: bool)
    requires r.device in w.sessions
    ensures
      var d := r.device;
      var verify := flowStarts && (!r.mode.Automatic? || r.prepareBeforeConnect);
      var w' := Commit(w, r, flowStarts);
      && w' == w.(sessions := w'.sessions, flows := w'.flows, flowTasks := w'.flowTasks, bluetooth := w'.bluetooth,
                  desired := w'.desired, pending := w'.pending, worker := Running(r, Returned(Success)))
      && d in w'.sessions && w'.sessions == w.sessions[d := w'.sessions[d]]
      && w'.sessions[d].link == w.sessions[d].link && w'.sessions[d].phase.Connected?
      && w'.sessions[d].flow == (if verify then Some(|w.flows|) else w.sessions[d].flow)
      && w'.flows == (if verify then w.flows + [NewMonitor(d)] else w.flows)
      && w'.flowTasks == (if verify then w.flowTasks[d := |w.flows|] else w.flowTasks)
      && w'.desired == (if d in w.desired then w.desired else w.desired + [d])
      && w'.pending == w.pending - {d}
  {
    var verify := flowStarts && (!r.mode.Automatic? || r.prepareBeforeConnect);
    EstablishedEffect(w, r.device, verify);
    CommittedEffect(Established(w, r.device, verify), r);
    hide Established, Committed, NewMonitor;
  }

  lemma CommittedEffect(w: World, r: Request)
    ensures
      var w' := Committed(w, r);
      && w' == w.(bluetooth := w'.bluetooth, desired := w'.desired, pending := w'.pending,
                  worker := Running(r, Returned(Success)))
      && w'.desired == (if r.device in w.desired then w.desired else w.desired + [r.device])
      && w'.pending == w.pending - {r.device}
  {
  }

  lemma EstablishedEffect(w: World, d: DeviceId, verify: bool)
    requires d in w.sessions
    ensures
      var w' := Established(w, d, verify);
      && w' == w.(sessions := w'.sessions, flows := w'.flows, flowTasks := w'.flowTasks)
      && d in w'.sessions && w'.sessions == w.sessions[d := w'.sessions[d]]
      && w'.sessions[d].link == w.sessions[d].link && w'.sessions[d].phase.Connected?
      && w'.sessions[d].flow == (if verify then Some(|w.flows|) else w.sessions[d].flow)
      && w'.flows == (if verify then w.flows + [NewMonitor(d)] else w.flows)
      && w'.flowTasks == (if verify then w.flowTasks[d := |w.flows|] else w.flowTasks)
  {
    hide NewMonitor;
  }

  /** A session without a flow has no task entry either once its attempt does not wait. */
  lemma NoTaskLeft(w: World, d: DeviceId)
    requires Flows(w) && d in w.sessions && w.sessions[d].flow.None? && !Waits(w.worker)
    ensures d !in w.flowTasks
  {
    assert SessionFlowOk(d, w.sessions[d], w.flows, w.flowTasks, w.worker);
  }

  lemma CommitFlows(w: World, flowStarts: bool)
    requires Flows(w) && Footing(w) && w.worker.Running? && w.worker.pc.Settling?
    requires IsCurrent(w, w.worker.request, w.worker.pc.current)
    ensures Flows(Commit(w, w.worker.request, flowStarts))
  {
    var r := w.worker.request;
    hide Flows, Commit;
    NoTaskLeft(w, r.device);
    CommitEffect(w, r, flowStarts);
    hide Footing, IsCurrent;
    if flowStarts && (!r.mode.Automatic? || r.prepareBeforeConnect) {
      MonitorFlows(w, Commit(w, r, flowStarts), r.device);
    } else {
      MoveFlows(w, Commit(w, r, flowStarts));
    }
  }

  lemma MonitorFlows(w: World, w': World, d: DeviceId)
    requires Flows(w) && !Waits(w.worker) && w'.worker.Running? && !Awaits(w'.worker)
    requires d in w.sessions && d !in w.flowTasks
    requires w'.flows == w.flows + [NewMonitor(d)] && w'.flowTasks == w.flowTasks[d := |w.flows|]
    requires d in w'.sessions && w'.sessions == w.sessions[d := w'.sessions[d]]
      && w'.sessions[d].flow == Some(|w.flows|)
    ensures Flows(w')
  {
    AppendChains(w.flows, w.flowTasks, NewMonitor(d));
    NewFlowSessions(w, w', d);
    hide ChainsOk, SessionFlowsOk;
  }

  lemma NewFlowSessions(w: World, w': World, d: DeviceId)
    requires SessionFlowsOk(w.sessions, w.flows, w.flowTasks, w.worker) && !Waits(w.worker) && w'.worker.Running?
    requires d in w.sessions && d !in w.flowTasks
    requires w'.flows == w.flows + [NewMonitor(d)] && w'.flowTasks == w.flowTasks[d := |w.flows|]
    requires d in w'.sessions && w'.sessions == w.sessions[d := w'.sessions[d]]
      && w'.sessions[d].flow == Some(|w.flows|)
    ensures SessionFlowsOk(w'.sessions, w'.flows, w'.flowTasks, w'.worker)
  {
    forall x | x in w'.sessions ensures SessionFlowOk(x, w'.sessions[x], w'.flows, w'.flowTasks, w'.worker) {
      assert SessionFlowOk(x, w.sessions[x], w.flows, w.flowTasks, w.worker);
    }
    forall i | 0 <= i < |w'.flows| && !w'.flows[i].stop && !w'.flows[i].done
      ensures w'.flows[i].device in w'.sessions && w'.sessions[w'.flows[i].device].flow == Some(i)
    {
      if i < |w.flows| {
        assert SessionFlowOk(w.flows[i].device, w.sessions[w.flows[i].device], w.flows, w.flowTasks, w.worker);
      }
    }
  }

  lemma SettleFlows(w: World, stillOpened: bool, flowStarts: bool)
    requires Flows(w) && Footing(w) && w.worker.Running? && w.worker.pc.Settling?
    ensures Flows(Settle(w, stillOpened, flowStarts))
  {
    hide CloseAndReturn, Commit, Flows;
    var r := w.worker.request;
    var pc := w.worker.pc;
    var result := if pc.result.Success? && !stillOpened then ClosedUnexpectedly else pc.result;
    if !IsCurrent(w, r, pc.current) || w.stopping {
      ReturnFlows(w, r, Lost(w, r));
    } else if result.Success? {
      CommitFlows(w, flowStarts);
    } else {
      ReturnFlows(w, r, result);
      SameFlows(CloseAndReturn(w, r, result), Settle(w, stillOpened, flowStarts));
    }
  }

  lemma OpeningFlows(w: World, e: Event)
    requires Flows(w) && Footing(w) && OpeningEnabled(w, e)
    ensures Flows(OpeningDoes(w, e))
  {
    hide Flows, Footing, AttemptBegins, OldFlowFinished, AfterPreparation, LookupEnds, FlowAwaitedAt, MaybeFaulty;
    if e.AttemptBegan? {
      BeginsFlows(w);
    } else if e.OldFlowAwaited? {
      OldFlowFlows(w);
    } else if e.OuterThrew? {
      OuterThrewFlows(w, e.timedOut);
    } else if e.PreparationChecked? {
      AfterPreparationFlows(w, e.fault);
    } else {
      LookupFlows(w, e.fault);
    }
  }

  lemma BeginCreationFlows(w: World, fault: Option<AttemptResult>)
    requires Flows(w) && w.worker.Running? && !Waits(w.worker)
    requires IsCurrent(w, w.worker.request, None)
    ensures Flows(BeginCreation(w, w.worker.request, fault))
  {
    hide Flows;
    MoveFlows(w, BeginCreation(w, w.worker.request, fault));
  }

  lemma AfterPreparationFlows(w: World, fault: Option<AttemptResult>)
    requires Flows(w) && Footing(w) && w.worker.Running? && w.worker.pc.AfterRecovery?
    ensures Flows(AfterPreparation(w, fault))
  {
    hide CloseAndReturn, BeginCreation, Flows, Footing;
    var r := w.worker.request;
    ReturnFlows(w, r, Cancelled);
    ReturnFlows(w, r, BluetoothRecoveryFailed);
    if IsCurrent(w, r, None) {
      MoveFlows(w, At(w, r, LookingUp));
      BeginCreationFlows(w, fault);
    }
  }

  lemma LookupFlows(w: World, fault: Option<AttemptResult>)
    requires Flows(w) && Footing(w) && w.worker.Running? && w.worker.pc.LookingUp?
    ensures Flows(LookupEnds(w, fault))
  {
    hide CloseAndReturn, BeginCreation, Flows, Footing;
    var r := w.worker.request;
    ReturnFlows(w, r, Cancelled);
    if IsCurrent(w, r, None) {
      BeginCreationFlows(w, fault);
    }
  }

  /** Only the attempt's own session changed, and not its flow. */
  predicate OwnMove(w: World, w': World)
    requires w.worker.Running?
  {
    && w'.flows == w.flows && w'.flowTasks == w.flowTasks && w'.worker.Running? && !Awaits(w'.worker)
    && (w'.sessions == w.sessions ||
        (var d := w.worker.request.device;
         d in w.sessions && d in w'.sessions && w'.sessions == w.sessions[d := w'.sessions[d]]
         && w'.sessions[d].flow == w.sessions[d].flow))
  }

  lemma OwnMoveFlows(w: World, w': World)
    requires Flows(w) && w.worker.Running? && !Waits(w.worker) && OwnMove(w, w')
    ensures Flows(w')
  {
    hide Flows;
    MoveFlows(w, w');
  }

  lemma HandOverMove(w: World, w': World, r: Request, l: LinkId)
    requires w.worker.Running? && r == w.worker.request && r.device in w.sessions
    requires w' == w.(creations := w'.creations)
    ensures OwnMove(w, HandOver(w', r, l))
  {
  }

  lemma ClaimMove(w: World, c: CreationId, after: ConnectionCreation.Creation, result: ConnectionCreation.TakeResult,
                  fault: AttemptResult)
    requires w.worker.Running? && c < |w.creations| && w.worker.request.device in w.sessions
    ensures OwnMove(w, Claim(w, w.worker.request, c, after, result, fault))
  {
    hide HandOver, OwnMove, ConnectionCreation.Abandon;
    var r := w.worker.request;
    if !result.Taken? {
      StayMove(w, At(UpdateCreation(w, c, ConnectionCreation.Abandon(after)), r, Settling(fault, None)));
    } else if result.connection.None? {
      StayMove(w, At(UpdateCreation(w, c, after), r, Settling(DeviceUnavailable, None)));
    } else {
      HandOverMove(w, UpdateCreation(w, c, after), r, result.connection.value);
    }
  }

  lemma StayMove(w: World, w': World)
    requires w.worker.Running? && w'.worker.Running? && !Awaits(w'.worker)
    requires w'.sessions == w.sessions && w'.flows == w.flows && w'.flowTasks == w.flowTasks
    ensures OwnMove(w, w')
  {
  }

  lemma CreationReadyMove(w: World, fault: AttemptResult)
    requires w.worker.Running? && w.worker.pc.Creating? && w.worker.pc.creation < |w.creations|
    ensures OwnMove(w, CreationReady(w, fault))
  {
    hide ConnectionCreation.Take, ConnectionCreation.Abandon, Claim, OwnMove;
    var r := w.worker.request;
    var c := w.worker.pc.creation;
    if !IsCurrent(w, r, None) || w.stopping {
      StayMove(w, Return(UpdateCreation(w, c, ConnectionCreation.Abandon(w.creations[c])), r, Cancelled));
    } else {
      ClaimMove(w, c, ConnectionCreation.Take(w.creations[c]).0, ConnectionCreation.Take(w.creations[c]).1, fault);
    }
  }

  lemma OpenReturnedMove(w: World, status: OpenStatus, isOpen: bool)
    requires w.worker.Running? && w.worker.pc.OpeningLink?
    ensures
      var w' := OpenReturned(w, status, isOpen);
      w' == CloseAndReturn(w, w.worker.request, Lost(w, w.worker.request)) || OwnMove(w, w')
  {
    hide CloseAndReturn;
  }

  lemma FaultsMove(w: World, fault: AttemptResult)
    requires w.worker.Running?
    requires match w.worker.pc
             case Creating(c) => c < |w.creations|
             case StartingLink(_) | OpeningLink(_) | WaitingOpened(_) => true
             case _ => false
    ensures OwnMove(w, AttemptFaults(w, fault))
  {
    hide ConnectionCreation.Abandon;
  }

  lemma StartedMove(w: World)
    requires w.worker.Running? && w.worker.pc.StartingLink?
    ensures LinkStarted(w) == CloseAndReturn(w, w.worker.request, Lost(w, w.worker.request))
      || OwnMove(w, LinkStarted(w))
  {
    hide CloseAndReturn;
  }

  lemma OpenedMove(w: World, isOpen: bool)
    requires w.worker.Running? && w.worker.pc.WaitingOpened?
    ensures OpenedWaited(w, isOpen) == CloseAndReturn(w, w.worker.request, Cancelled)
      || OwnMove(w, OpenedWaited(w, isOpen))
  {
    hide CloseAndReturn;
  }

  lemma LinkFlows(w: World, e: Event)
    requires Flows(w) && Footing(w) && LinkEnabled(w, e)
    ensures Flows(LinkDoes(w, e))
  {
    hide Flows, Footing, OwnMove, Settle, CreationReady, OpenReturned, AttemptFaults, LinkStarted, OpenedWaited, Faulty;
    var r := w.worker.request;
    if e.CreationAwaited? {
      CreationReadyMove(w, e.error);
      OwnMoveFlows(w, CreationReady(w, e.error));
    } else if e.InnerThrew? {
      FaultsMove(w, e.error);
      OwnMoveFlows(w, AttemptFaults(w, e.error));
    } else if e.StartAwaited? {
      StartedMove(w);
      LinkMoveFlows(w, LinkStarted(w), Lost(w, r));
    } else if e.OpenAwaited? {
      OpenReturnedMove(w, e.status, e.isOpen);
      LinkMoveFlows(w, OpenReturned(w, e.status, e.isOpen), Lost(w, r));
    } else if e.OpenedAwaited? {
      OpenedMove(w, e.isOpen);
      LinkMoveFlows(w, OpenedWaited(w, e.isOpen), Cancelled);
    } else {
      SettleFlows(w, e.stillOpened, e.flowStarts);
    }
  }

  lemma LinkMoveFlows(w: World, w': World, result: AttemptResult)
    requires Flows(w) && Footing(w) && w.worker.Running? && w.worker.pc.Underway() && !Waits(w.worker)
    requires w' == CloseAndReturn(w, w.worker.request, result) || OwnMove(w, w')
    ensures Flows(w')
  {
    hide Flows, Footing, CloseAndReturn, OwnMove;
    if w' == CloseAndReturn(w, w.worker.request, result) {
      ReturnFlows(w, w.worker.request, result);
    } else {
      OwnMoveFlows(w, w');
    }
  }

  // ---------------------------------------------------------------- closers and endpoint workers

  /** A flow after its closer has returned. */
  function ClosedFlow(x: Flow): Flow {
    x.(closed := true, done := x.done || x.worker.NoWorker?)
  }

  lemma ClosedAdvances(flows: seq<Flow>, f: FlowId)
    requires CloserMay(flows, f) && FlowOk(flows, flows[f], f)
    ensures FlowOk(flows, ClosedFlow(flows[f]), f) && Advances(flows[f], ClosedFlow(flows[f]))
  {
  }

  lemma CloserFlows(w: World, f: FlowId)
    requires Flows(w) && CloserMay(w.flows, f)
    ensures Flows(CloserReturns(w, f))
  {
    var y := ClosedFlow(w.flows[f]);
    assert FlowOk(w.flows, w.flows[f], f);
    hide FlowOk;
    ClosedAdvances(w.flows, f);
    AdvanceChains(w.flows, w.flowTasks, f, y);
    hide Flows, CloserMay, Advances;
    AdvancedFlows(w, CloserReturns(w, f), f, y);
  }

  lemma AdvancedFlows(w: World, w': World, f: FlowId, y: Flow)
    requires Flows(w) && f < |w.flows| && ChainsOk(w.flows[f := y], w.flowTasks)
    requires y.device == w.flows[f].device && y.predecessor == w.flows[f].predecessor && y.stop == w.flows[f].stop
    requires (w.flows[f].done ==> y.done) && (y.MayCycle() ==> w.flows[f].MayCycle())
    requires w'.flows == w.flows[f := y] && w'.flowTasks == w.flowTasks && w'.sessions == w.sessions
      && w'.worker == w.worker
    ensures Flows(w')
  {
    hide ChainsOk, Covered;
    AdvancedRecovery(w.flows, w.worker, f, y);
    hide RecoveryFlowsOk;
    forall d | d in w'.sessions ensures SessionFlowOk(d, w'.sessions[d], w'.flows, w'.flowTasks, w'.worker) {
      assert SessionFlowOk(d, w.sessions[d], w.flows, w.flowTasks, w.worker);
    }
  }

  lemma AdvancedRecovery(flows: seq<Flow>, worker: Worker, f: FlowId, y: Flow)
    requires RecoveryFlowsOk(flows, worker) && f < |flows|
    requires y.predecessor == flows[f].predecessor && (y.MayCycle() ==> flows[f].MayCycle())
    ensures RecoveryFlowsOk(flows[f := y], worker)
  {
    var flows' := flows[f := y];
    if worker.Running? && worker.pc.AwaitingFlows? {
      assert SameLinks(flows, flows');
      forall i | 0 <= i < |flows'| && flows'[i].MayCycle() ensures Covered(flows', worker.pc.tasks, i) {
        CoveredFrame(flows, flows', worker.pc.tasks, i);
      }
    }
  }

  lemma ActedAdvances(flows: seq<Flow>, f: FlowId, a: FlowAction)
    requires f < |flows| && FlowMay(flows[f], a) && FlowOk(flows, flows[f], f)
    ensures FlowOk(flows, FlowActs(flows[f], a), f) && Advances(flows[f], FlowActs(flows[f], a))
  {
  }

  lemma FlowActedFlows(w: World, f: FlowId, a: FlowAction)
    requires Flows(w) && f < |w.flows| && FlowMay(w.flows[f], a)
    ensures Flows(w.(flows := w.flows[f := FlowActs(w.flows[f], a)]))
  {
    var y := FlowActs(w.flows[f], a);
    assert FlowOk(w.flows, w.flows[f], f);
    hide FlowOk;
    ActedAdvances(w.flows, f, a);
    AdvanceChains(w.flows, w.flowTasks, f, y);
    hide Flows, Advances;
    AdvancedFlows(w, w.(flows := w.flows[f := y]), f, y);
  }

  lemma BackgroundFlows(w: World, e: Event)
    requires Flows(w) && BackgroundEnabled(w, e)
    ensures Flows(BackgroundDoes(w, e))
  {
    hide Flows, CloserMay, FlowMay, FlowActs, CreationMay, CloserReturns, ConnectionCreation.Do;
    if e.CloserDone? {
      CloserFlows(w, e.flow);
    } else if e.FlowActed? {
      FlowActedFlows(w, e.flow, e.flowAction);
    } else {
      SameFlows(w, BackgroundDoes(w, e));
    }
  }

  // ---------------------------------------------------------------- the theorem

  /** No endpoint is being disabled or enabled while the radio goes off and on. */
  lemma NoCycleDuringTransaction(w: World)
    requires Flows(w) && w.worker.Running? && w.worker.pc.InTransaction?
    ensures forall f :: 0 <= f < |w.flows| ==> !w.flows[f].Cycling() && !w.flows[f].MayCycle()
  {
  }
}
