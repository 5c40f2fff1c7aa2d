/** g_app as the object the source updates in place, one method per function or per segment
    between two awaits. */
module AppRuntime {
  import opened Wrappers
  import opened Records
  import opened Protocol
  import opened ProtocolCore
  import opened ProtocolFlows
  import opened ProtocolFrames
  import opened ProtocolRuns
  import opened ProtocolPlayback
  import opened ProtocolRequests
  import opened AppAnswers
  import opened AppSteps

  lemma PutBack(w: World, d: DeviceId)
    requires d in w.sessions
    ensures w.(sessions := (w.sessions - {d})[d := w.sessions[d]]) == w
  {
    assert (w.sessions - {d})[d := w.sessions[d]] == w.sessions;
  }

  /** The methods follow ConnectionFlow.hpp, BluetoothRecovery.hpp, DeviceListUi.hpp and Aulay.cpp,
      are written as the source writes them, and are proved to take exactly the protocol's step
      and to keep the joint invariants; beside that they state what their caller may rely on. */
  class AppRuntimeState {
    var shutdownRequested: bool
    var reconnectEnabled: bool
    var sessions: map<DeviceId, Session>
    var connectionQueue: seq<Request>
    var connectionWorkerRunning: bool
    var worker: Worker
    var connectGenerations: map<DeviceId, nat>
    var nextConnectionAttemptId: nat
    var desiredDevices: seq<DeviceId>
    var pendingAutoReconnects: set<DeviceId>
    var suppressedAutoReconnects: set<DeviceId>
    var deferredBluetoothRecovery: set<DeviceId>
    var preparedDevices: set<DeviceId>
    var bluetooth: Bluetooth
    var flows: seq<Flow>
    var audioFlowTasks: map<DeviceId, FlowId>
    var creations: seq<ConnectionCreation.Creation>
    var connectionCreations: map<DeviceId, CreationId>
    var links: seq<Link>
    var live: set<LinkId>

    constructor (reconnect: bool, desired: seq<DeviceId>)
      ensures Initial(View()) && reconnectEnabled == reconnect && desiredDevices == desired
      ensures Valid()
    {
      shutdownRequested, reconnectEnabled := false, reconnect;
      sessions, connectionQueue, connectionWorkerRunning, worker := map[], [], false, Idle;
      connectGenerations, nextConnectionAttemptId, desiredDevices := map[], 0, desired;
      pendingAutoReconnects, suppressedAutoReconnects, deferredBluetoothRecovery, preparedDevices := {}, {}, {}, {};
      bluetooth := Bluetooth(true, false, NO_DEVICE);
      flows, audioFlowTasks, creations, connectionCreations, links, live := [], map[], [], map[], [], {};
      new;
      InitiallySafe(View());
      hide Safe;
    }

    /** The protocol state this object holds. */
    function View(): World
      reads this
    {
      World(shutdownRequested, reconnectEnabled, sessions, connectionQueue, connectionWorkerRunning, worker,
            connectGenerations, nextConnectionAttemptId, desiredDevices, pendingAutoReconnects,
            suppressedAutoReconnects, deferredBluetoothRecovery, preparedDevices, bluetooth, flows, audioFlowTasks,
            creations, connectionCreations, links, live)
    }

    /** The protocol's joint invariants: one request or session per device under its current
        generation, endpoint flows accounted for, and every open link in one kind of hands.
        Every whole step keeps them; the methods a step is made of do not ask for them, since in
        the middle of a step a session may be gone whose attempt does not know it yet. */
    ghost predicate Valid()
      reads this
    {
      Safe(View())
    }

    // -------------------------------------------------------------- closing

    method CloseConnectionSession(d: DeviceId, generation: Option<nat>, skipAudioCleanup: bool)
      returns (wasConnected: bool)
      modifies `sessions, `flows, `audioFlowTasks
      ensures View() == CloseSession(old(View()), d, generation, skipAudioCleanup)
      ensures wasConnected <==> Closes(old(View()), d, generation) && old(sessions)[d].phase.Connected?
      ensures Closes(old(View()), d, generation) ==>
                HandsOver(old(View()), View(), d, Cleans(old(View()), d, skipAudioCleanup))
    {
      CloseHandsOver(View(), d, generation, skipAudioCleanup);
      hide HandsOver, Cleans;
      if d !in sessions || (generation.Some? && sessions[d].generation != generation.value) {
        return false;
      }
      wasConnected := sessions[d].phase.Connected?;
      var cleanAudio := wasConnected && !shutdownRequested && !skipAudioCleanup && !bluetooth.inProgress;
      hide CloseSession, RetiredFlow;
      RetireSession(d, cleanAudio);
    }

    /** Erasing the session, and handing it over. */
    method RetireSession(d: DeviceId, cleanAudio: bool)
      requires d in sessions
      modifies `sessions, `flows, `audioFlowTasks
      ensures
        var w := old(View());
        var (f, flow) := RetiredFlow(w, d, cleanAudio);
        View() == w.(sessions := w.sessions - {d}, flows := Put(w.flows, f, flow), flowTasks := w.flowTasks[d := f])
    {
      hide RetiredFlow, Put;
      PutBack(View(), d);
      var retired := sessions[d];
      sessions := sessions - {d};
      var f := RetireFlow(d, retired, cleanAudio);
      audioFlowTasks := audioFlowTasks[d := f];
    }

    /** The flow the retired session is handed to, and the closer started for it. */
    method RetireFlow(d: DeviceId, retired: Session, cleanAudio: bool) returns (f: FlowId)
      modifies `flows
      ensures
        var w := old(View()).(sessions := old(sessions)[d := retired]);
        var (f', flow) := RetiredFlow(w, d, cleanAudio);
        f == f' && f <= |w.flows| && flows == Put(w.flows, f, flow)
    {
      ghost var w := View().(sessions := sessions[d := retired]);
      var predecessor := if d in audioFlowTasks then Some(audioFlowTasks[d]) else None;
      if !StillRuns(flows, retired.flow) {
        // Only a cycle needs a worker; other closes are just tracked.
        f := |flows|;
        var task := if cleanAudio then AwaitingClose else NoWorker;
        flows := flows + [Flow(d, false, task, false, false, false, false, None, None)];
      } else {
        f := retired.flow.value;
        predecessor := if predecessor == Some(f) then None else predecessor;
      }
      flows := flows[f := flows[f].(cleanup := cleanAudio, stop := true)];
      // The closer's coroutine frame: what it waits for and what it closes.
      flows := flows[f := flows[f].(predecessor := predecessor, link := retired.link)];
      ghost var flow := RetiredFlow(w, d, cleanAudio).1;
      assert flows == Put(w.flows, f, flow);
    }

    method PrepareForcedConnection(d: DeviceId) returns (ready: bool)
      modifies `sessions, `flows, `audioFlowTasks
      ensures ready <==> old(d in sessions ==> sessions[d].phase.Connected?)
      ensures View() == (if ready then CloseSession(old(View()), d, None, true) else old(View()))
      ensures ready ==> d !in sessions
    {
      if d !in sessions {
        return true;
      }
      if !sessions[d].phase.Connected? {
        return false;
      }
      CloseEffect(View(), d, None, true);
      hide CloseSession;
      var _ := CloseConnectionSession(d, None, true);
      ready := true;
    }

    method ForgetDevice(d: DeviceId)
      modifies `desiredDevices
      ensures desiredDevices == Without(old(desiredDevices), d)
    {
      var kept: seq<DeviceId> := [];
      var i := 0;
      while i < |desiredDevices|
        invariant i <= |desiredDevices| && desiredDevices == old(desiredDevices)
        invariant kept + Without(desiredDevices[i..], d) == Without(desiredDevices, d)
      {
        if desiredDevices[i] != d {
          kept := kept + [desiredDevices[i]];
        }
        i := i + 1;
      }
      desiredDevices := kept;
    }

    method RemoveQueuedRequests(d: DeviceId)
      modifies `connectionQueue
      ensures connectionQueue == WithoutDevice(old(connectionQueue), d)
    {
      var kept: seq<Request> := [];
      var i := 0;
      while i < |connectionQueue|
        invariant i <= |connectionQueue| && connectionQueue == old(connectionQueue)
        invariant kept + WithoutDevice(connectionQueue[i..], d) == WithoutDevice(connectionQueue, d)
      {
        assert connectionQueue[i..][1..] == connectionQueue[i + 1..];
        if connectionQueue[i].device != d {
          kept := kept + [connectionQueue[i]];
        }
        i := i + 1;
      }
      connectionQueue := kept;
    }

    /** The device's requests and everything that would bring one back. */
    method RetireRequests(d: DeviceId)
      modifies `connectGenerations, `connectionQueue, `pendingAutoReconnects, `desiredDevices
      ensures View() == Withdrawn(old(View()), d)
    {
      hide Forgotten, WithoutDevice, Generation;
      connectGenerations := connectGenerations[d := Generation(connectGenerations, d) + 1];
      RemoveQueuedRequests(d);
      DropReconnects(d);
    }

    method DropReconnects(d: DeviceId)
      modifies `pendingAutoReconnects, `desiredDevices
      ensures View() == Forgotten(old(View()), d)
    {
      hide Without;
      pendingAutoReconnects := pendingAutoReconnects - {d};
      ForgetDevice(d);
    }

    /** Afterwards the device is quiet: only an accepted click brings it back. */
    method DisconnectDevice(d: DeviceId)
      requires Valid()
      modifies this
      ensures View() == Disconnect(old(View()), d) && Valid() && QuietKept(old(View()), View())
      ensures !old(shutdownRequested) ==> Quiet(View(), d)
      ensures !old(shutdownRequested) && d in old(sessions) ==>
                HandsOver(old(View()), View(), d, Cleans(old(View()), d, false))
    {
      DisconnectKeeps(View(), d);
      DisconnectHandsOver(View(), d);
      hide *;
      RetireDevice(d);
    }

    /** Generation, requests, remembered entry and session of the device go. */
    method RetireDevice(d: DeviceId)
      modifies this
      ensures View() == Disconnect(old(View()), d)
    {
      if shutdownRequested {
        return;
      }
      hide CloseSession, Withdrawn;
      RetireRequests(d);
      var _ := CloseConnectionSession(d, None, false);
    }

    method HandleConnectionClosed(d: DeviceId, generation: nat, sender: LinkId, readsClosed: bool)
      requires Valid()
      modifies this
      ensures View() == LinkClosed(old(View()), d, generation, sender, readsClosed)
      ensures Valid() && QuietKept(old(View()), View())
      ensures ActsOnOwnSession(old(View()), View(), d, generation, sender, readsClosed)
      ensures RemoteClose(old(View()), d, generation, sender, readsClosed) ==>
                HandsOver(old(View()), View(), d, false)
    {
      UserKeeps(View(), ClosedReported(d, generation, sender, readsClosed));
      ReportHandsOver(View(), d, generation, sender, readsClosed);
      ReportActs(View(), d, generation, sender, readsClosed);
      assert UserDoes(View(), ClosedReported(d, generation, sender, readsClosed))
        == LinkClosed(View(), d, generation, sender, readsClosed);
      hide *;
      CloseReportedSession(d, generation, sender, readsClosed);
    }

    /** The part of it that runs on the UI thread. */
    method CloseReportedSession(d: DeviceId, generation: nat, sender: LinkId, readsClosed: bool)
      modifies this
      ensures View() == LinkClosed(old(View()), d, generation, sender, readsClosed)
    {
      if shutdownRequested || d !in sessions || sessions[d].generation != generation
        || sessions[d].link != Some(sender) {
        return;
      }
      if !readsClosed || !sessions[d].phase.Connected? {
        return;
      }
      hide CloseSession, Muted;
      NoteRemoteClose(d);
      var _ := CloseConnectionSession(d, Some(generation), true);
    }

    /** A close inside a recovery is the recovery's own doing. */
    method NoteRemoteClose(d: DeviceId)
      modifies `suppressedAutoReconnects, `deferredBluetoothRecovery, `pendingAutoReconnects
      ensures View() == Muted(old(View()), d)
    {
      if !bluetooth.inProgress {
        suppressedAutoReconnects := suppressedAutoReconnects + {d};
        deferredBluetoothRecovery := deferredBluetoothRecovery + {d};
      }
      pendingAutoReconnects := pendingAutoReconnects - {d};
    }

    // -------------------------------------------------------------- clicks and rows

    /** The first button; a second click on a connected or queued device disconnects it. */
    method QuickConnectClicked(d: DeviceId, discovered: bool)
      requires Valid()
      modifies this
      ensures View() == ClickQuick(old(View()), d, discovered) && Valid() && OthersQuiet(old(View()), View(), d)
      ensures !old(shutdownRequested) && (d in old(sessions) || Queued(old(connectionQueue), d)) ==> Quiet(View(), d)
      ensures ClickTold(old(View()), View(), QuickClicked(d, discovered))
    {
      ClickKeeps(View(), QuickClicked(d, discovered));
      ClickTells(View(), QuickClicked(d, discovered));
      assert UserDoes(View(), QuickClicked(d, discovered)) == ClickQuick(View(), d, discovered);
      hide UserDoes, Safe, Quiet, QuietKept, OthersQuiet, Disconnect, Enqueue, Queued, ClickTold;
      if shutdownRequested {
        return;
      }
      var queued := IsConnectionQueued(d);
      if d in sessions || queued {
        DisconnectDevice(d);
      } else if discovered {
        QueueConnectionInternal(d, true, Quick, None);
      }
    }

    /** The second button: a connected row is marked as silent and queued again, any other
        row with a session is left alone. */
    method ForceConnectClicked(d: DeviceId)
      requires Valid()
      modifies this
      ensures View() == ClickForce(old(View()), d) && Valid() && OthersQuiet(old(View()), View(), d)
      ensures ClickTold(old(View()), View(), ForceClicked(d))
    {
      ClickKeeps(View(), ForceClicked(d));
      ClickTells(View(), ForceClicked(d));
      assert UserDoes(View(), ForceClicked(d)) == ClickForce(View(), d);
      hide UserDoes, Safe, Quiet, QuietKept, OthersQuiet, Enqueue, ClickTold;
      if shutdownRequested || (d in sessions && !sessions[d].phase.Connected?) {
        return;
      }
      QueueConnectionInternal(d, false, Forced, None);
    }

    /** UpsertDeviceRow and MaybeQueuePendingReconnect, as the watcher and the reconciliation
        call them. */
    method DeviceAppeared(d: DeviceId, newlyPresent: bool)
      requires Valid()
      modifies this
      ensures View() == DeviceAppears(old(View()), d, newlyPresent) && Valid() && QuietKept(old(View()), View())
      ensures AppearsTold(old(View()), View(), d, newlyPresent)
    {
      UserKeeps(View(), Appeared(d, newlyPresent));
      AppearsTells(View(), d, newlyPresent);
      assert UserDoes(View(), Appeared(d, newlyPresent)) == DeviceAppears(View(), d, newlyPresent);
      hide *;
      ShowDevice(d, newlyPresent);
    }

    /** The row, its deferred retry, and the reconnect it may have waited for. */
    method ShowDevice(d: DeviceId, newlyPresent: bool)
      modifies this
      ensures View() == DeviceAppears(old(View()), d, newlyPresent)
    {
      if shutdownRequested || bluetooth.inProgress {
        return;
      }
      if newlyPresent {
        ResetDeferral(d);
      }
      hide MaybeReconnect;
      QueueReconnect(d);
    }

    // -------------------------------------------------------------- queueing

    method IsConnectionQueued(d: DeviceId) returns (found: bool)
      ensures found <==> Queued(connectionQueue, d)
    {
      var i := 0;
      while i < |connectionQueue|
        invariant i <= |connectionQueue|
        invariant forall j :: 0 <= j < i ==> connectionQueue[j].device != d
      {
        if connectionQueue[i].device == d {
          return true;
        }
        i := i + 1;
      }
      found := false;
    }

    /** The scan of QueueConnectionInternal and of the reordering in ConnectionQueuePosition. */
    method FindQueued(d: DeviceId) returns (i: nat)
      ensures i == QueueIndex(connectionQueue, d)
    {
      i := 0;
      while i < |connectionQueue| && connectionQueue[i].device != d
        invariant i <= |connectionQueue|
        invariant forall j :: 0 <= j < i ==> connectionQueue[j].device != d
      {
        i := i + 1;
      }
    }

    /** A retry passes all of its request along; every other caller passes None. */
    method QueueConnectionInternal(d: DeviceId, hasSnapshot: bool, mode: Mode, retry: Option<Request>)
      modifies this
      ensures View() == Enqueue(old(View()), d, hasSnapshot, mode, retry)
      ensures Answers(old(View()), View(), d, hasSnapshot, mode, retry)
    {
      EnqueueAnswers(View(), d, hasSnapshot, mode, retry);
      hide Enqueue, Answers;
      AnswerRequest(d, hasSnapshot, mode, retry);
    }

    /** The gates, and the queue behind them. */
    method AnswerRequest(d: DeviceId, hasSnapshot: bool, mode: Mode, retry: Option<Request>)
      modifies this
      ensures View() == Enqueue(old(View()), d, hasSnapshot, mode, retry)
    {
      CloseEffect(View(), d, None, true);
      if d == NO_DEVICE || shutdownRequested {
        return;
      }
      if mode.Automatic? && d in suppressedAutoReconnects {
        return;
      }
      if bluetooth.inProgress && mode.Automatic? {
        return;
      }
      if mode.Forced? {
        var ready := PrepareForcedConnection(d);
        if !ready {
          return;
        }
      }
      if d in sessions {
        return;
      }
      hide CloseSession;
      PlaceRequest(d, hasSnapshot, mode, retry);
    }

    /** QueueConnectionInternal once its gates are passed. */
    method PlaceRequest(d: DeviceId, hasSnapshot: bool, mode: Mode, retry: Option<Request>)
      modifies this
      ensures View() == Place(old(View()), d, hasSnapshot, mode, retry)
      ensures sessions == old(sessions) && flows == old(flows)
    {
      hide PlacedAt, QueueIndex;
      Unsuppress(d, mode);
      var i := FindQueued(d);
      PlaceAt(i, d, hasSnapshot, mode, retry);
    }

    method PlaceAt(i: nat, d: DeviceId, hasSnapshot: bool, mode: Mode, retry: Option<Request>)
      modifies `connectionQueue, `connectGenerations, `nextConnectionAttemptId, `connectionWorkerRunning, `worker
      ensures View() == PlacedAt(old(View()), i, d, hasSnapshot, mode, retry)
    {
      hide Promote, Append, FreshRequest, Numbered;
      if i < |connectionQueue| {
        UpdateQueued(i, hasSnapshot, mode, retry.Some?);
      } else if retry.Some? {
        AppendRequest(retry.value);
      } else {
        var newest := NewRequest(d, hasSnapshot, mode);
        AppendRequest(newest);
      }
    }

    /** An explicit request lifts the suppression; any request consumes the pending reconnect. */
    method Unsuppress(d: DeviceId, mode: Mode)
      modifies `suppressedAutoReconnects, `pendingAutoReconnects
      ensures
        var w := old(View());
        View() == Unsuppressed(w, d, mode)
    {
      if !mode.Automatic? {
        suppressedAutoReconnects := suppressedAutoReconnects - {d};
      }
      pendingAutoReconnects := pendingAutoReconnects - {d};
    }

    /** The device is queued already: only an explicit click takes the request over. */
    method UpdateQueued(i: nat, hasSnapshot: bool, mode: Mode, isRetry: bool)
      requires i < |connectionQueue|
      modifies `connectionQueue, `connectGenerations, `nextConnectionAttemptId
      ensures
        var w := old(View());
        View() == if !mode.Automatic? && !isRetry then Promote(w, i, hasSnapshot, mode)
                  else w.(queue := w.queue[i := w.queue[i].(hasSnapshot := hasSnapshot || w.queue[i].hasSnapshot)])
    {
      hide FreshRequest, Numbered;
      var queued := connectionQueue[i];
      if hasSnapshot {
        queued := queued.(hasSnapshot := true);
      }
      if !mode.Automatic? && !isRetry {
        queued := NewRequest(queued.device, queued.hasSnapshot, mode);
      }
      connectionQueue := connectionQueue[i := queued];
    }

    /** A new generation, a new attempt id, and the strategy the device's history calls for. */
    method NewRequest(d: DeviceId, hasSnapshot: bool, mode: Mode) returns (r: Request)
      modifies `connectGenerations, `nextConnectionAttemptId
      ensures r == FreshRequest(old(View()), d, hasSnapshot, mode)
      ensures IsNew(old(View()), r, d, mode) && r.hasSnapshot == hasSnapshot
      ensures View() == Numbered(old(View()), r)
    {
      NewRequestIsNew(View(), d, hasSnapshot, mode);
      hide IsNew;
      connectGenerations := connectGenerations[d := Generation(connectGenerations, d) + 1];
      nextConnectionAttemptId := nextConnectionAttemptId + 1;
      var recoverAfterRemoteClose := d in deferredBluetoothRecovery;
      var prepareBeforeConnect := d !in preparedDevices;
      var strategy := SelectInitialRecoveryStrategy(mode, recoverAfterRemoteClose, prepareBeforeConnect);
      r := Request(d, hasSnapshot, connectGenerations[d], nextConnectionAttemptId, 0, mode, strategy,
                   recoverAfterRemoteClose, prepareBeforeConnect, 0, NotRequired, 0);
    }

    method AppendRequest(r: Request)
      modifies `connectionQueue, `connectionWorkerRunning, `worker
      ensures View() == Append(old(View()), r)
    {
      connectionQueue := connectionQueue + [r];
      if !connectionWorkerRunning {
        connectionWorkerRunning := true;
        worker := Head;
      }
    }

    /** It wakes no quiet device. */
    method MaybeQueuePendingReconnect(d: DeviceId)
      requires Valid()
      modifies this
      ensures View() == MaybeReconnect(old(View()), d) && Valid() && QuietKept(old(View()), View())
      ensures ReconnectsOnce(old(View()), View(), d)
    {
      ReconnectKeeps(View(), d);
      ReconnectAnswers(View(), d);
      hide *;
      QueueReconnect(d);
    }

    /** The guard and the Automatic request behind it. */
    method QueueReconnect(d: DeviceId)
      modifies this
      ensures View() == MaybeReconnect(old(View()), d)
    {
      if !reconnectEnabled || shutdownRequested {
        return;
      }
      var queued := IsConnectionQueued(d);
      if d !in pendingAutoReconnects || d in sessions || queued {
        return;
      }
      hide Enqueue;
      QueueConnectionInternal(d, true, Automatic, None);
    }

    method RemoveDeviceRow(d: DeviceId)
      requires Valid() && !shutdownRequested && !bluetooth.inProgress
      modifies `pendingAutoReconnects
      ensures View() == DeviceLeaves(old(View()), d) && Valid() && QuietKept(old(View()), View())
      ensures LeavesRow(old(View()), View(), d)
    {
      UserKeeps(View(), Left(d));
      RowAnswers(View(), d);
      assert UserDoes(View(), Left(d)) == DeviceLeaves(View(), d);
      hide *;
      RearmDevice(d);
    }

    /** An absent remembered device waits to be reconnected. */
    method RearmDevice(d: DeviceId)
      requires !shutdownRequested && !bluetooth.inProgress
      modifies `pendingAutoReconnects
      ensures View() == DeviceLeaves(old(View()), d)
    {
      var queued := IsConnectionQueued(d);
      if d in sessions || queued {
        return;
      }
      if reconnectEnabled && d in desiredDevices && d !in suppressedAutoReconnects {
        pendingAutoReconnects := pendingAutoReconnects + {d};
      }
    }

    /** UpsertDeviceRow's loop: a device that is back need not wait for its deferred retry. */
    method ResetDeferral(d: DeviceId)
      modifies `connectionQueue
      ensures connectionQueue == ResetNotBefore(old(connectionQueue), d)
    {
      hide ResetNotBefore;
      var i := 0;
      while i < |connectionQueue|
        invariant i <= |connectionQueue| == old(|connectionQueue|)
        invariant forall j :: 0 <= j < i ==> connectionQueue[j] == ResetNotBefore(old(connectionQueue), d)[j]
        invariant forall j :: i <= j < |connectionQueue| ==> connectionQueue[j] == old(connectionQueue)[j]
      {
        if connectionQueue[i].device == d {
          connectionQueue := connectionQueue[i := connectionQueue[i].(notBefore := 0)];
        }
        i := i + 1;
      }
    }

    /** Remembered devices that went quiet stay quiet. */
    method QueueRememberedDevices(discovered: set<DeviceId>)
      requires Valid()
      modifies this
      ensures View() == RememberAll(old(View()), old(desiredDevices), discovered)
      ensures Valid() && QuietKept(old(View()), View())
      ensures old(shutdownRequested) || !old(reconnectEnabled) ==> View() == old(View())
      ensures !old(shutdownRequested) && old(reconnectEnabled) ==>
                forall d :: d in old(desiredDevices) ==> BackInLine(View(), d, d in discovered)
    {
      hide Safe, Quiet, BackInLine;
      if shutdownRequested || !reconnectEnabled {
        RememberNone(View(), desiredDevices, discovered);
        return;
      }
      var ids := desiredDevices;
      var i := 0;
      hide RememberOne;
      while i < |ids|
        invariant i <= |ids| && Valid() && !shutdownRequested && reconnectEnabled
        invariant ids == desiredDevices && QuietKept(old(View()), View())
        invariant forall k :: 0 <= k < i ==> BackInLine(View(), ids[k], ids[k] in discovered)
        invariant RememberAll(View(), ids[i..], discovered) == RememberAll(old(View()), ids, discovered)
      {
        RememberOneEffect(View(), ids[i], ids[i] in discovered);
        ghost var v := View();
        ghost var v' := RememberOne(v, ids[i], ids[i] in discovered);
        RememberTurn(ids[i], ids[i] in discovered);
        EarlierStayRecalled(v, v', ids, i, discovered);
        assert ids[i..][1..] == ids[i + 1..];
        assert RememberAll(v, ids[i..], discovered) == RememberAll(v', ids[i + 1..], discovered);
        i := i + 1;
      }
    }

    method RememberTurn(d: DeviceId, discovered: bool)
      requires Valid() && !shutdownRequested && reconnectEnabled && d in desiredDevices
      modifies this
      ensures View() == RememberOne(old(View()), d, discovered) && Valid() && QuietKept(old(View()), View())
      ensures !shutdownRequested && reconnectEnabled && desiredDevices == old(desiredDevices)
    {
      UserKeeps(View(), Remembered(d, discovered));
      assert UserDoes(View(), Remembered(d, discovered)) == RememberOne(View(), d, discovered);
      RememberOneEffect(View(), d, discovered);
      hide *;
      RememberDevice(d, discovered);
    }

    /** Marking the device as waiting, and reconnecting it if it is there. */
    method RememberDevice(d: DeviceId, discovered: bool)
      requires !shutdownRequested && reconnectEnabled
      modifies this
      ensures View() == RememberOne(old(View()), d, discovered)
    {
      hide MaybeReconnect;
      if d == NO_DEVICE {
        return;
      }
      pendingAutoReconnects := pendingAutoReconnects + {d};
      if discovered {
        QueueReconnect(d);
      }
    }

    // -------------------------------------------------------------- the queue worker

    method FindNextConnectionRequest() returns (next: nat)
      requires connectionQueue != []
      ensures next == NextIndex(connectionQueue)
    {
      next := 0;
      var i := 1;
      while i < |connectionQueue|
        invariant 1 <= i <= |connectionQueue|
        invariant next == NextIndex(connectionQueue[..i])
      {
        assert connectionQueue[..i + 1][..i] == connectionQueue[..i];
        if connectionQueue[i].notBefore < connectionQueue[next].notBefore {
          next := i;
        }
        i := i + 1;
      }
      assert connectionQueue[..i] == connectionQueue;
    }

    /** One turn of ProcessConnectionQueue's loop up to its first await. */
    method ProcessQueueHead(now: nat)
      requires Valid() && worker.Head?
      modifies `connectionQueue, `worker
      ensures View() == WorkerHead(old(View()), now) && Valid() && QuietKept(old(View()), View())
      ensures TakesUp(old(View()), View(), now) && HeadActs(old(View()), View(), now)
    {
      HeadTells(View(), now);
      LoopKeeps(View(), HeadRan(now));
      HeadTakesUp(View(), now);
      assert LoopDoes(View(), HeadRan(now)) == WorkerHead(View(), now);
      hide *;
      TakeRequest(now);
    }

    /** Leaving the loop, waiting, or taking the next request out of the queue. */
    method TakeRequest(now: nat)
      requires worker.Head?
      modifies `connectionQueue, `worker
      ensures View() == WorkerHead(old(View()), now)
    {
      if connectionQueue == [] || shutdownRequested {
        worker := Exiting;
        return;
      }
      if bluetooth.inProgress {
        return;
      }
      var next := FindNextConnectionRequest();
      hide NextIndex, RemoveAt;
      if connectionQueue[next].notBefore > now {
        return;
      }
      var request := connectionQueue[next];
      connectionQueue := RemoveAt(connectionQueue, next);
      if Generation(connectGenerations, request.device) != request.generation || request.device in sessions {
        return;
      }
      worker := Running(request, Popped);
    }

    /** After the loop: another worker starts if requests arrived meanwhile. */
    method LeaveQueue()
      requires Valid() && worker.Exiting?
      modifies `connectionWorkerRunning, `worker
      ensures View() == WorkerExit(old(View())) && Valid() && QuietKept(old(View()), View())
      ensures connectionWorkerRunning <==> connectionQueue != []
    {
      LoopKeeps(View(), ExitRan);
      ExitRestarts(View());
      assert LoopDoes(View(), ExitRan) == WorkerExit(View());
      hide *;
      RestartOrIdle();
    }

    /** Another worker starts if requests arrived meanwhile. */
    method RestartOrIdle()
      modifies `connectionWorkerRunning, `worker
      ensures View() == WorkerExit(old(View()))
    {
      connectionWorkerRunning, worker := false, Idle;
      if connectionQueue != [] && !shutdownRequested {
        connectionWorkerRunning, worker := true, Head;
      }
    }

    /** The rest of a turn, after ConnectDeviceAsync returned. */
    method FinishTurn(request: Request, result: AttemptResult, now: nat)
      modifies this
      ensures View() == FinishAttempt(old(View()), request, result, now)
      ensures request.device != NO_DEVICE && !old(bluetooth.inProgress) ==>
                EndsTurn(old(View()), View(), request, result, TriesAgain(old(View()), request, result), now)
    {
      if request.device != NO_DEVICE && !bluetooth.inProgress {
        FinishQueues(View(), request, result, now);
      }
      hide EndsTurn, TriesAgain, FinishAttempt;
      NoteAndRequeue(request, result, now);
    }

    method NoteAndRequeue(request: Request, result: AttemptResult, now: nat)
      modifies this
      ensures View() == FinishAttempt(old(View()), request, result, now)
    {
      NoteOutcome(result);
      Requeue(request, result, now);
    }

    /** The turn of an attempt that came to an answer. */
    method FinishReturnedTurn(now: nat)
      requires Valid() && worker.Running? && worker.pc.Returned?
      modifies this
      ensures View() == AttemptReturned(old(View()), now) && Valid() && QuietKept(old(View()), View())
      ensures TurnDone(old(View()), View(), now)
      ensures TurnAnswered(old(View()), View(), now)
    {
      LoopKeeps(View(), AttemptDone(now));
      CoreStamps(View());
      TurnEnds(View(), AttemptDone(now));
      TurnTells(View(), AttemptDone(now));
      assert LoopDoes(View(), AttemptDone(now)) == AttemptReturned(View(), now);
      hide *;
      FinishTurnReturned(now);
    }

    method FinishTurnReturned(now: nat)
      requires worker.Running? && worker.pc.Returned?
      modifies this
      ensures View() == AttemptReturned(old(View()), now)
    {
      hide FinishAttempt;
      FinishTurn(worker.request, worker.pc.result, now);
    }

    /** CanRetryConnection's branch, with the rest of its guard. */
    method Requeue(request: Request, result: AttemptResult, now: nat)
      modifies this
      ensures
        var w := old(View());
        View() == if CanRetryConnection(request, result) && !w.stopping
                     && Generation(w.generations, request.device) == request.generation
                     && !Queued(w.queue, request.device) && request.device !in w.sessions
                  then Enqueue(w, request.device, false, request.mode, Some(RetryRequest(request, now)))
                  else w
    {
      hide Enqueue, CanRetryConnection, RetryRequest, Queued;
      var queued := IsConnectionQueued(request.device);
      if CanRetryConnection(request, result) && !shutdownRequested
         && Generation(connectGenerations, request.device) == request.generation && !queued
         && request.device !in sessions {
        var retry := RetryRequest(request, now);
        QueueConnectionInternal(request.device, false, request.mode, Some(retry));
      }
    }

    method NoteOutcome(result: AttemptResult)
      modifies `bluetooth, `worker
      ensures
        var w := old(View());
        var failed := !result.Success? && !result.Cancelled?;
        View() == w.(worker := Head, bluetooth := if failed then w.bluetooth.(needed := true) else w.bluetooth)
    {
      worker := Head;
      if !result.Success? && !result.Cancelled? {
        bluetooth := bluetooth.(needed := true);
      }
    }

    method FinishThrownTurn(request: Request, timedOut: bool, now: nat)
      requires Valid() && worker == Running(request, Threw(timedOut))
      modifies this
      ensures View() == AttemptThrew(old(View()), now) && Valid() && QuietKept(old(View()), View())
      ensures TurnDone(old(View()), View(), now)
      ensures TurnAnswered(old(View()), View(), now)
    {
      LoopKeeps(View(), AttemptDone(now));
      CoreStamps(View());
      TurnEnds(View(), AttemptDone(now));
      TurnTells(View(), AttemptDone(now));
      assert LoopDoes(View(), AttemptDone(now)) == AttemptThrew(View(), now);
      hide *;
      ReleaseAndFinish(request, timedOut, now);
    }

    /** The exception handler of the loop: the placeholder session goes, then the turn ends. */
    method ReleaseAndFinish(request: Request, timedOut: bool, now: nat)
      requires worker == Running(request, Threw(timedOut))
      modifies this
      ensures View() == AttemptThrew(old(View()), now)
    {
      hide CloseSession, FinishAttempt;
      CloseEffectHere(request);
      var result := if timedOut then DeadlineExceeded else AttemptFailed;
      var _ := CloseConnectionSession(request.device, Some(request.generation), false);
      if shutdownRequested || Generation(connectGenerations, request.device) != request.generation {
        result := Cancelled;
      }
      FinishTurn(request, result, now);
    }

    lemma CloseEffectHere(request: Request)
      ensures
        var w' := CloseSession(View(), request.device, Some(request.generation), false);
        w' == View().(sessions := w'.sessions, flows := w'.flows, flowTasks := w'.flowTasks)
    {
      CloseEffect(View(), request.device, Some(request.generation), false);
    }

    // -------------------------------------------------------------- segments of one attempt

    /** ConnectDeviceAsync up to its wait for the old flow. */
    method BeginAttempt()
      requires Valid() && worker.Running? && worker.pc.Popped?
      modifies `connectionCreations, `sessions, `preparedDevices, `worker
      ensures View() == AttemptBegins(old(View())) && Valid() && QuietKept(old(View()), View())
      ensures Begun(old(View()), View()) && BeginsAs(old(View()), View())
    {
      OpeningKeeps(View(), AttemptBegan);
      BeginAnswers(View());
      BeginsBegun(View());
      assert OpeningDoes(View(), AttemptBegan) == AttemptBegins(View());
      hide *;
      EmplaceSession();
    }

    /** The stale checks, the creation slot and the placeholder session. */
    method EmplaceSession()
      requires worker.Running? && worker.pc.Popped?
      modifies `connectionCreations, `sessions, `preparedDevices, `worker
      ensures View() == AttemptBegins(old(View()))
    {
      hide Generation, SlotBusy, Emplaced, BeginPreparation;
      var request := worker.request;
      var d := request.device;
      if d == NO_DEVICE || shutdownRequested || Generation(connectGenerations, d) != request.generation
        || d in sessions {
        worker := Running(request, Returned(Cancelled));
        return;
      }
      var free := TakeSlot(request);
      if !free {
        worker := Running(request, Returned(DeviceUnavailable));
        return;
      }
      if d in audioFlowTasks {
        worker := Running(request, WaitingOldFlow(audioFlowTasks[d]));
      } else {
        StartPreparation(request);
      }
    }

    /** An unfinished creation keeps the device's slot; else the placeholder session stands. */
    method TakeSlot(request: Request) returns (free: bool)
      modifies `connectionCreations, `sessions
      ensures free <==> !SlotBusy(old(View()), request.device)
      ensures View() == if free then Emplaced(old(View()), request) else old(View())
    {
      var d := request.device;
      if d in connectionCreations {
        if connectionCreations[d] < |creations| && !creations[connectionCreations[d]].Finished() {
          return false;
        }
        connectionCreations := connectionCreations - {d};
      }
      assert connectionCreations == old(connectionCreations) - {d};
      var phase := if request.strategy.Direct? then Phase.Starting else RecoveringBluetooth;
      sessions := sessions[d := Session(request.generation, request.attemptId, phase, None, None)];
      free := true;
    }

    /** From the decision to prepare up to EnsureBluetoothReady's first await. */
    method StartPreparation(request: Request)
      modifies `preparedDevices, `worker
      ensures View() == BeginPreparation(old(View()), request)
      ensures DecidesToPrepare(old(View()), View(), request)
    {
      DecidesEither(View(), request);
      hide *;
      PrepareOrGoOn(request);
    }

    method PrepareOrGoOn(request: Request)
      modifies `preparedDevices, `worker
      ensures View() == BeginPreparation(old(View()), request)
    {
      if request.strategy.Direct? {
        worker := Running(request, AfterRecovery(NotRequired));
        return;
      }
      var forcedReset := request.mode.Forced? && request.preparationAttempts == 0;
      preparedDevices := preparedDevices - {request.device};
      worker := Running(request.(preparationAttempts := request.preparationAttempts + 1),
                        EnteringRecovery(forcedReset));
    }

    /** The wait has returned; no flow of the device is left unfinished. */
    method ResumeAfterOldFlow()
      requires Valid() && worker.Running? && worker.pc.WaitingOldFlow?
      requires worker.pc.flow < |flows| && flows[worker.pc.flow].Finished()
      modifies `audioFlowTasks, `preparedDevices, `worker
      ensures View() == OldFlowFinished(old(View())) && Valid() && QuietKept(old(View()), View())
      ensures PastOldFlow(old(View()), View()) && ResumesAs(old(View()), View())
    {
      OpeningKeeps(View(), OldFlowAwaited);
      ResumeAnswers(View());
      WaitIsOver(View());
      assert OpeningDoes(View(), OldFlowAwaited) == OldFlowFinished(View());
      hide *;
      DropOldTask();
    }

    /** Giving up, or on to the preparation without the finished task. */
    method DropOldTask()
      requires worker.Running? && worker.pc.WaitingOldFlow?
      modifies `audioFlowTasks, `preparedDevices, `worker
      ensures View() == OldFlowFinished(old(View()))
    {
      hide BeginPreparation, IsCurrent;
      var request := worker.request;
      if !Goes(None) {
        worker := Running(request, Returned(Cancelled));
        return;
      }
      audioFlowTasks := audioFlowTasks - {request.device};
      StartPreparation(request);
    }

    /** HasConnectedSessions. */
    method HasConnectedSessions() returns (any: bool)
      ensures any <==> HasLivePlayback(sessions, live)
    {
      var todo := sessions.Keys;
      while todo != {}
        invariant todo <= sessions.Keys
        invariant forall d :: d in sessions && d !in todo ==>
                    !(sessions[d].phase.Connected? && sessions[d].link.Some? && sessions[d].link.value in live)
        decreases |todo|
      {
        var d :| d in todo;
        if sessions[d].phase.Connected? && sessions[d].link.Some? && sessions[d].link.value in live {
          return true;
        }
        todo := todo - {d};
      }
      any := false;
    }

    /** EnsureBluetoothReady up to its first await. */
    method EnterRecovery()
      requires Valid() && worker.Running? && worker.pc.EnteringRecovery?
      modifies `bluetooth, `worker
      ensures View() == RecoveryGate(old(View())) && Valid() && QuietKept(old(View()), View())
      ensures PastGate(old(View()), View()) && GatesAs(old(View()), View())
    {
      RecoveryKeeps(View(), GateRan);
      GateTells(View());
      GateLets(View());
      assert RecoveryDoes(View(), GateRan) == RecoveryGate(View());
      hide *;
      PassGate();
    }

    /** The gate itself. */
    method PassGate()
      requires worker.Running? && worker.pc.EnteringRecovery?
      modifies `bluetooth, `worker
      ensures View() == RecoveryGate(old(View()))
    {
      var request := worker.request;
      var allow := worker.pc.allow;
      bluetooth := bluetooth.(needed := true);
      var playing := HasConnectedSessions();
      hide HasLivePlayback;
      if playing && !allow {
        EndPreparation(request, NotRequired);
      } else if bluetooth.inProgress {
        worker := Running(request, JoiningRecovery);
      } else if shutdownRequested {
        EndPreparation(request, UnexpectedFailure);
      } else {
        bluetooth := bluetooth.(device := request.device, inProgress := true);
        worker := Running(request, FindingRadio(allow));
      }
    }

    /** What ConnectDeviceAsync records of the answer. */
    method EndPreparation(request: Request, outcome: Recovery)
      modifies `worker
      ensures View() == PreparationEnds(old(View()), request, outcome)
    {
      var updated := request.(preparationResult := outcome);
      if outcome.Succeeded? || outcome.NotRequired? {
        updated := updated.(strategy := Direct);
      }
      worker := Running(updated, AfterRecovery(outcome));
    }

    /** Collecting the established sessions before they are revoked. */
    method EstablishedSessions() returns (ids: seq<DeviceId>)
      ensures Lists(ids, ConnectedIds(sessions))
    {
      ids := [];
      var todo := sessions.Keys;
      while todo != {}
        invariant todo <= sessions.Keys
        invariant forall i :: 0 <= i < |ids| ==> ids[i] in ConnectedIds(sessions)
        invariant forall d :: d in ConnectedIds(sessions) && d !in todo ==> d in ids
        decreases |todo|
      {
        var d :| d in todo;
        if sessions[d].phase.Connected? {
          ids := ids + [d];
        }
        todo := todo - {d};
      }
    }

    method CloseSessions(ids: seq<DeviceId>)
      modifies `sessions, `flows, `audioFlowTasks
      ensures View() == CloseAll(old(View()), ids)
    {
      var i := 0;
      hide CloseSession;
      while i < |ids|
        invariant i <= |ids|
        invariant CloseAll(View(), ids[i..]) == CloseAll(old(View()), ids)
      {
        var _ := CloseConnectionSession(ids[i], None, false);
        assert ids[i..][1..] == ids[i + 1..];
        i := i + 1;
      }
    }

    /** After ResolveBluetoothRadio: revoke if allowed, then snapshot the flows to wait for. */
    method RevokeAndSnapshot() returns (ids: seq<DeviceId>, tasks: seq<FlowId>)
      requires Valid() && worker.Running? && worker.pc.FindingRadio? && worker.request.device in sessions
      modifies this
      ensures Lists(ids, ConnectedIds(old(sessions))) && Lists(tasks, audioFlowTasks.Values)
      ensures View() == RadioFound(old(View()), ids, tasks) && Valid() && QuietKept(old(View()), View())
      ensures old(worker.pc.allow) ==> NoneConnected(sessions)
      ensures forall f :: 0 <= f < |flows| && flows[f].MayCycle() ==> Covered(flows, tasks, f)
      ensures RevokesAs(old(View()), View(), tasks)
    {
      hide Safe, QuietKept, NoneConnected, Covered, CloseAll, ConnectedIds, Lists, RevokesAs;
      ghost var w := View();
      ids, tasks := RevokeAndList();
      RevokeAnswers(w, ids, tasks);
      RecoveryKeeps(w, RadioResolved(ids, tasks));
      assert RecoveryDoes(w, RadioResolved(ids, tasks)) == RadioFound(w, ids, tasks);
      SafeParts(View());
    }

    method RevokeAndList() returns (ids: seq<DeviceId>, tasks: seq<FlowId>)
      requires worker.Running? && worker.pc.FindingRadio?
      modifies this
      ensures Lists(ids, ConnectedIds(old(sessions))) && Lists(tasks, audioFlowTasks.Values)
      ensures View() == RadioFound(old(View()), ids, tasks)
    {
      ids := EstablishedSessions();
      var allow := worker.pc.allow;
      hide CloseAll, ConnectedIds, Lists;
      if allow {
        CloseSessions(ids);
      }
      tasks := FlowSnapshot();
      worker := Running(worker.request, AwaitingFlows(allow, tasks));
    }

    method FlowSnapshot() returns (tasks: seq<FlowId>)
      ensures Lists(tasks, audioFlowTasks.Values)
    {
      tasks := [];
      var todo := audioFlowTasks.Keys;
      while todo != {}
        invariant todo <= audioFlowTasks.Keys
        invariant forall i :: 0 <= i < |tasks| ==> tasks[i] in audioFlowTasks.Values
        invariant forall d :: d in audioFlowTasks && d !in todo ==> audioFlowTasks[d] in tasks
        decreases |todo|
      {
        var d :| d in todo;
        tasks := tasks + [audioFlowTasks[d]];
        todo := todo - {d};
      }
    }

    /** The end of EnsureBluetoothReady. */
    method LeaveRecovery()
      requires Valid() && worker.Running? && worker.pc.FinishingRecovery?
      modifies `deferredBluetoothRecovery, `preparedDevices, `bluetooth, `worker
      ensures View() == RecoveryFinished(old(View())) && Valid() && QuietKept(old(View()), View())
      ensures RecoveryLeft(old(View()), View()) && LeavesAs(old(View()), View())
    {
      RecoveryKeeps(View(), RecoveryEnded);
      LeaveAnswers(View());
      FinishLeaves(View());
      assert RecoveryDoes(View(), RecoveryEnded) == RecoveryFinished(View());
      hide *;
      RecordRecovery();
    }

    /** What a finished recovery leaves behind. */
    method RecordRecovery()
      requires worker.Running? && worker.pc.FinishingRecovery?
      modifies `deferredBluetoothRecovery, `preparedDevices, `bluetooth, `worker
      ensures View() == RecoveryFinished(old(View()))
    {
      hide Prepared, PreparationEnds;
      var request := worker.request;
      var outcome := worker.pc.outcome;
      if outcome.Succeeded? {
        NotePrepared(request.device);
      }
      bluetooth := bluetooth.(needed := !outcome.Succeeded?, inProgress := false);
      EndPreparation(request, outcome);
    }

    method NotePrepared(d: DeviceId)
      modifies `deferredBluetoothRecovery, `preparedDevices
      ensures View() == Prepared(old(View()), d)
    {
      deferredBluetoothRecovery := deferredBluetoothRecovery - {d};
      preparedDevices := preparedDevices + {d};
    }

    /** Releasing the placeholder session on the way out. */
    method GiveUp(result: AttemptResult)
      requires worker.Running?
      modifies `sessions, `flows, `audioFlowTasks, `worker
      ensures View() == CloseAndReturn(old(View()), old(worker.request), result)
    {
      hide CloseSession;
      var request := worker.request;
      var _ := CloseConnectionSession(request.device, Some(request.generation), false);
      worker := Running(request, Returned(result));
    }

    /** IsCurrentConnectionSession together with the shutdown check every segment makes. */
    predicate Goes(link: Option<LinkId>)
      reads this
    {
      worker.Running? && IsCurrent(View(), worker.request, link) && !shutdownRequested
    }

    method AfterRecoveryAnswer(fault: Option<AttemptResult>)
      requires Valid() && worker.Running? && worker.pc.AfterRecovery? && MaybeFaulty(fault)
      modifies this
      ensures View() == AfterPreparation(old(View()), fault) && Valid() && QuietKept(old(View()), View())
      ensures CreatesAlone(View())
      ensures !IsCurrent(old(View()), old(worker.request), None) ==> GivesUp(old(View()), View())
      ensures ChecksAs(old(View()), View(), fault)
    {
      OpeningKeeps(View(), PreparationChecked(fault));
      CheckAnswers(View(), fault);
      CheckedEffect(View(), fault);
      assert OpeningDoes(View(), PreparationChecked(fault)) == AfterPreparation(View(), fault);
      FreshIsAlone(AfterPreparation(View(), fault));
      hide *;
      FollowAnswer(fault);
    }

    /** What the answer means for the attempt. */
    method FollowAnswer(fault: Option<AttemptResult>)
      requires worker.Running? && worker.pc.AfterRecovery?
      modifies this
      ensures View() == AfterPreparation(old(View()), fault)
    {
      hide CloseAndReturn, BeginCreation;
      var request := worker.request;
      var outcome := worker.pc.outcome;
      if !Goes(None) {
        GiveUp(Cancelled);
      } else if !outcome.Succeeded? && !outcome.NotRequired? {
        GiveUp(if outcome.RecoveryCancelled? then Cancelled else BluetoothRecoveryFailed);
      } else if !request.hasSnapshot || outcome.Succeeded? {
        worker := Running(request, LookingUp);
      } else {
        StartCreation(fault);
      }
    }

    method AfterLookup(fault: Option<AttemptResult>)
      requires Valid() && worker.Running? && worker.pc.LookingUp? && MaybeFaulty(fault)
      modifies this
      ensures View() == LookupEnds(old(View()), fault) && Valid() && QuietKept(old(View()), View())
      ensures CreatesAlone(View())
      ensures !IsCurrent(old(View()), old(worker.request), None) ==> GivesUp(old(View()), View())
      ensures LooksUpAs(old(View()), View(), fault)
    {
      OpeningKeeps(View(), LookupDone(fault));
      LookUpAnswers(View(), fault);
      LookedUpEffect(View(), fault);
      assert OpeningDoes(View(), LookupDone(fault)) == LookupEnds(View(), fault);
      FreshIsAlone(LookupEnds(View(), fault));
      hide *;
      FollowLookup(fault);
    }

    /** Giving up, or on to the creation. */
    method FollowLookup(fault: Option<AttemptResult>)
      requires worker.Running? && worker.pc.LookingUp?
      modifies this
      ensures View() == LookupEnds(old(View()), fault)
    {
      hide CloseAndReturn, BeginCreation;
      if !Goes(None) {
        GiveUp(Cancelled);
      } else {
        StartCreation(fault);
      }
    }

    /** From the device snapshot to the wait for the created connection; a fault is one of the
        deadline check before it. */
    method StartCreation(fault: Option<AttemptResult>)
      requires worker.Running? && worker.request.device in sessions
      modifies `sessions, `creations, `connectionCreations, `worker
      ensures View() == BeginCreation(old(View()), old(worker.request), fault)
      ensures CreatesAs(old(View()), View(), fault)
    {
      CreateAnswers(View(), fault);
      hide NewSlot, CreatesAs;
      var request := worker.request;
      var d := request.device;
      sessions := sessions[d := sessions[d].(phase := Phase.Starting)];
      if fault.Some? {
        worker := Running(request, Settling(fault.value, None));
        return;
      }
      var creation := FillSlot(d);
      worker := Running(request, Creating(creation));
    }

    /** A worker of its own creates the device's connection. */
    method FillSlot(d: DeviceId) returns (creation: CreationId)
      modifies `creations, `connectionCreations
      ensures creation == |old(creations)| && View() == NewSlot(old(View()), d)
    {
      creation := |creations|;
      creations := creations + [ConnectionCreation.New(d)];
      connectionCreations := connectionCreations[d := creation];
    }

    /** The creation is ready: take its connection, or abandon it on the way out. */
    method ClaimConnection(fault: AttemptResult)
      requires Valid() && worker.Running? && worker.pc.Creating? && worker.pc.creation < |creations|
      requires creations[worker.pc.creation].Ready() && Faulty(fault)
      modifies `sessions, `creations, `worker
      ensures View() == CreationReady(old(View()), fault) && Valid() && QuietKept(old(View()), View())
      ensures ClaimsOnlyLink(old(View()), View()) && ClaimsAs(old(View()), View(), fault)
    {
      ClaimAnswers(View(), fault);
      LinkKeeps(View(), CreationAwaited(fault));
      ClaimedIsOnly(View(), fault);
      assert LinkDoes(View(), CreationAwaited(fault)) == CreationReady(View(), fault);
      hide *;
      TakeOrAbandon(fault);
    }

    /** Taking the connection, or abandoning the creation. */
    method TakeOrAbandon(fault: AttemptResult)
      requires worker.Running? && worker.pc.Creating? && worker.pc.creation < |creations|
      modifies `sessions, `creations, `worker
      ensures View() == CreationReady(old(View()), fault)
    {
      hide ConnectionCreation.Take, ConnectionCreation.Abandon, Claim;
      var c := worker.pc.creation;
      if !Goes(None) {
        LeaveCreation(c, ConnectionCreation.Abandon(creations[c]), Returned(Cancelled));
        return;
      }
      var (after, taken) := ConnectionCreation.Take(creations[c]);
      UseAnswer(c, after, taken, fault);
    }

    /** What Take answered: a link, nothing or an exception. */
    method UseAnswer(c: CreationId, after: ConnectionCreation.Creation, taken: ConnectionCreation.TakeResult,
                     fault: AttemptResult)
      requires worker.Running? && worker.request.device in sessions && c < |creations|
      modifies `sessions, `creations, `worker
      ensures View() == Claim(old(View()), old(worker.request), c, after, taken, fault)
    {
      hide ConnectionCreation.Abandon, HandOver;
      if !taken.Taken? {
        LeaveCreation(c, ConnectionCreation.Abandon(after), Settling(fault, None));
      } else if taken.connection.None? {
        LeaveCreation(c, after, Settling(DeviceUnavailable, None));
      } else {
        creations := creations[c := after];
        KeepConnection(taken.connection.value);
      }
    }

    /** The attempt goes on without a connection of this creation. */
    method LeaveCreation(c: CreationId, after: ConnectionCreation.Creation, pc: Pc)
      requires worker.Running? && c < |creations|
      modifies `creations, `worker
      ensures View() == At(UpdateCreation(old(View()), c, after), old(worker.request), pc)
    {
      creations := creations[c := after];
      worker := Running(worker.request, pc);
    }

    /** The session owns the link from here on. */
    method KeepConnection(link: LinkId)
      requires worker.Running? && worker.request.device in sessions
      modifies `sessions, `worker
      ensures View() == HandOver(old(View()), old(worker.request), link)
    {
      var request := worker.request;
      sessions := sessions[request.device := sessions[request.device].(link := Some(link))];
      worker := Running(request, StartingLink(link));
    }

    method AfterStart()
      requires Valid() && worker.Running? && worker.pc.StartingLink?
      modifies this
      ensures View() == LinkStarted(old(View())) && Valid() && QuietKept(old(View()), View())
      ensures !IsCurrent(old(View()), old(worker.request), Some(old(worker.pc.link))) ==> GivesUp(old(View()), View())
      ensures StartsAs(old(View()), View())
    {
      LinkKeeps(View(), StartAwaited);
      StartAnswers(View());
      StartLost(View());
      assert LinkDoes(View(), StartAwaited) == LinkStarted(View());
      hide *;
      BeginOpening();
    }

    /** Giving up, or on to OpenAsync. */
    method BeginOpening()
      requires worker.Running? && worker.pc.StartingLink?
      modifies this
      ensures View() == LinkStarted(old(View()))
    {
      hide CloseAndReturn, Generation;
      var request := worker.request;
      var link := worker.pc.link;
      if !Goes(Some(link)) {
        GiveUp(Lost(View(), request));
        return;
      }
      sessions := sessions[request.device := sessions[request.device].(phase := Phase.Opening)];
      worker := Running(request, OpeningLink(link));
    }

    method AfterOpen(status: OpenStatus, isOpen: bool)
      requires Valid() && worker.Running? && worker.pc.OpeningLink?
      modifies this
      ensures View() == OpenReturned(old(View()), status, isOpen) && Valid() && QuietKept(old(View()), View())
      ensures !IsCurrent(old(View()), old(worker.request), Some(old(worker.pc.link))) ==> GivesUp(old(View()), View())
      ensures OpensAs(old(View()), View(), status, isOpen)
    {
      LinkKeeps(View(), OpenAwaited(status, isOpen));
      OpenAnswers(View(), status, isOpen);
      OpenLost(View(), status, isOpen);
      assert LinkDoes(View(), OpenAwaited(status, isOpen)) == OpenReturned(View(), status, isOpen);
      hide *;
      FollowOpen(status, isOpen);
    }

    /** Giving up, or on by the open status. */
    method FollowOpen(status: OpenStatus, isOpen: bool)
      requires worker.Running? && worker.pc.OpeningLink?
      modifies this
      ensures View() == OpenReturned(old(View()), status, isOpen)
    {
      hide CloseAndReturn, Generation;
      var link := worker.pc.link;
      if !Goes(Some(link)) {
        GiveUp(Lost(View(), worker.request));
        return;
      }
      NoteOpenStatus(link, status, isOpen);
    }

    /** What the open status means. */
    method NoteOpenStatus(link: LinkId, status: OpenStatus, isOpen: bool)
      requires worker.Running? && worker.pc == OpeningLink(link) && Goes(Some(link))
      modifies `sessions, `worker
      ensures View() == OpenReturned(old(View()), status, isOpen)
    {
      hide CloseAndReturn;
      var request := worker.request;
      if status.OpenSucceeded? {
        sessions := sessions[request.device := sessions[request.device].(phase := Phase.WaitingForOpened)];
        worker := Running(request, if isOpen then Settling(Success, Some(link)) else WaitingOpened(link));
        return;
      }
      var result := OpenFailed;
      if status.RequestTimedOut? {
        result := OpenTimedOut;
      } else if status.RequestDenied? {
        result := DeniedBySystem;
      }
      worker := Running(request, Settling(result, Some(link)));
    }

    method AfterOpenedWait(isOpen: bool)
      requires Valid() && worker.Running? && worker.pc.WaitingOpened?
      modifies this
      ensures View() == OpenedWaited(old(View()), isOpen) && Valid() && QuietKept(old(View()), View())
      ensures !IsCurrent(old(View()), old(worker.request), Some(old(worker.pc.link))) ==> GivesUp(old(View()), View())
      ensures WaitsAs(old(View()), View(), isOpen)
    {
      LinkKeeps(View(), OpenedAwaited(isOpen));
      WaitAnswers(View(), isOpen);
      WaitLost(View(), isOpen);
      assert LinkDoes(View(), OpenedAwaited(isOpen)) == OpenedWaited(View(), isOpen);
      hide *;
      SettleOpened(isOpen);
    }

    /** Giving up, or on to the last segment. */
    method SettleOpened(isOpen: bool)
      requires worker.Running? && worker.pc.WaitingOpened?
      modifies this
      ensures View() == OpenedWaited(old(View()), isOpen)
    {
      hide CloseAndReturn;
      var link := worker.pc.link;
      if !Goes(Some(link)) {
        GiveUp(Cancelled);
        return;
      }
      worker := Running(worker.request, Settling(if isOpen then Success else ClosedUnexpectedly, Some(link)));
    }

    /** The last segment: re-read the connection, then commit or fail. */
    method SettleAttempt(stillOpened: bool, flowStarts: bool)
      requires Valid() && worker.Running? && worker.pc.Settling?
      modifies this
      ensures View() == Settle(old(View()), stillOpened, flowStarts) && Valid() && QuietKept(old(View()), View())
      ensures Ended(old(View()), View()) && SettlesAs(old(View()), View(), stillOpened, flowStarts)
    {
      LinkKeeps(View(), Settled(stillOpened, flowStarts));
      SettleAnswers(View(), stillOpened, flowStarts);
      SettleEnds(View(), stillOpened, flowStarts);
      assert LinkDoes(View(), Settled(stillOpened, flowStarts)) == Settle(View(), stillOpened, flowStarts);
      hide *;
      CommitOrFail(stillOpened, flowStarts);
    }

    /** The outcome of the attempt, decided on the connection read once more. */
    method CommitOrFail(stillOpened: bool, flowStarts: bool)
      requires worker.Running? && worker.pc.Settling?
      modifies this
      ensures View() == Settle(old(View()), stillOpened, flowStarts)
    {
      hide CloseAndReturn, Lost, Commit, Failed;
      var current := worker.pc.current;
      var result := worker.pc.result;
      if !Goes(current) {
        GiveUp(Lost(View(), worker.request));
        return;
      }
      if result.Success? && !stillOpened {
        result := ClosedUnexpectedly;
      }
      if result.Success? {
        CommitSession(flowStarts);
      } else {
        FailAttempt(result);
      }
    }

    method FailAttempt(result: AttemptResult)
      requires worker.Running?
      modifies `sessions, `flows, `audioFlowTasks, `bluetooth, `worker
      ensures View() == Failed(old(View()), old(worker.request), result)
    {
      hide CloseAndReturn;
      GiveUp(result);
      bluetooth := bluetooth.(needed := true);
    }

    /** The success branch at the end of ConnectDeviceAsync. */
    method CommitSession(flowStarts: bool)
      requires worker.Running? && worker.request.device in sessions
      modifies this
      ensures View() == Commit(old(View()), old(worker.request), flowStarts)
      ensures Establishes(old(View()), View(), flowStarts)
    {
      CommitAnswers(View(), flowStarts);
      hide Establishes;
      var request := worker.request;
      var verify := (!request.mode.Automatic? || request.prepareBeforeConnect) && flowStarts;
      hide NewMonitor, Established, Committed;
      MarkConnected(request.device, verify);
      NoteSuccess(request);
    }

    /** The session's new phase, and the worker that verifies its audio. */
    method MarkConnected(d: DeviceId, verify: bool)
      requires d in sessions
      modifies `sessions, `flows, `audioFlowTasks
      ensures View() == Established(old(View()), d, verify)
    {
      hide NewMonitor;
      var session := sessions[d].(phase := Connected);
      if verify {
        var task := StartMonitor(d);
        session := session.(flow := Some(task));
      }
      sessions := sessions[d := session];
    }

    /** A new worker watches the device's audio. */
    method StartMonitor(d: DeviceId) returns (task: FlowId)
      modifies `flows, `audioFlowTasks
      ensures task == |old(flows)| && flows == old(flows) + [NewMonitor(d)]
        && audioFlowTasks == old(audioFlowTasks)[d := task]
    {
      task := |flows|;
      flows := flows + [NewMonitor(d)];
      audioFlowTasks := audioFlowTasks[d := task];
    }

    method NoteSuccess(request: Request)
      modifies `bluetooth, `desiredDevices, `pendingAutoReconnects, `worker
      ensures View() == Committed(old(View()), request)
    {
      hide Recalled;
      RecallDevice(request.device);
      bluetooth := bluetooth.(needed := false);
      worker := Running(request, Returned(Success));
    }

    /** The device is remembered and need not be reconnected. */
    method RecallDevice(d: DeviceId)
      modifies `desiredDevices, `pendingAutoReconnects
      ensures View() == Recalled(old(View()), d)
    {
      if d !in desiredDevices {
        desiredDevices := desiredDevices + [d];
      }
      pendingAutoReconnects := pendingAutoReconnects - {d};
    }

    // -------------------------------------------------------------- closers and endpoint workers

    /** The end of CloseSessionInBackground: Close has returned. */
    method FinishClose(f: FlowId)
      requires Valid() && CloserMay(flows, f)
      modifies `flows, `links
      ensures View() == CloserReturns(old(View()), f) && Valid() && QuietKept(old(View()), View())
      ensures LinkGone(View(), f)
    {
      BackgroundKeeps(View(), CloserDone(f));
      CloserLeaves(View(), f);
      assert BackgroundDoes(View(), CloserDone(f)) == CloserReturns(View(), f);
      hide *;
      SignalClosed(f);
    }

    /** The link and the flow it was closed for. */
    method SignalClosed(f: FlowId)
      requires f < |flows|
      modifies `flows, `links
      ensures View() == CloserReturns(old(View()), f)
    {
      var flow := flows[f];
      if flow.link.Some? && flow.link.value < |links| {
        links := links[flow.link.value := links[flow.link.value].(closed := true)];
      }
      flow := flow.(closed := true);
      if flow.worker.NoWorker? {
        flow := flow.(done := true);
      }
      flows := flows[f := flow];
    }

    /** AudioFlow::Run, one phase at a time. */
    method RunFlowWorker(f: FlowId, action: FlowAction)
      requires Valid() && f < |flows| && FlowMay(flows[f], action)
      modifies `flows
      ensures View() == old(View()).(flows := old(flows)[f := FlowActs(old(flows)[f], action)])
      ensures Valid() && QuietKept(old(View()), View())
      ensures !(worker.Running? && worker.pc.InTransaction?)
    {
      BackgroundKeeps(View(), FlowActed(f, action));
      NothingActsInTransaction(View(), f, action);
      assert BackgroundDoes(View(), FlowActed(f, action)) == View().(flows := flows[f := FlowActs(flows[f], action)]);
      hide *;
      Act(f, action);
    }

    /** The phase change itself. */
    method Act(f: FlowId, action: FlowAction)
      requires f < |flows| && FlowMay(flows[f], action)
      modifies `flows
      ensures View() == old(View()).(flows := old(flows)[f := FlowActs(old(flows)[f], action)])
    {
      var flow := flows[f];
      match action {
        case BeginRepair => flow := flow.(worker := RepairCycle);
        case EndRepair => flow := flow.(worker := Monitoring);
        case EndMonitoring => flow := flow.(worker := AwaitingClose);
        case BeginCleanup => flow := flow.(worker := CleanupCycle);
        case EndWorker => flow := flow.(worker := WorkerDone, done := true);
      }
      flows := flows[f := flow];
    }

    // -------------------------------------------------------------- shutdown

    /** The loop over connectGenerations. */
    method BumpGenerations()
      modifies `connectGenerations
      ensures connectGenerations == BumpAll(old(connectGenerations))
    {
      var todo := connectGenerations.Keys;
      while todo != {}
        invariant todo <= connectGenerations.Keys == old(connectGenerations).Keys
        invariant forall d :: d in connectGenerations ==>
                    connectGenerations[d] == old(connectGenerations)[d] + (if d in todo then 0 else 1)
        decreases |todo|
      {
        var d :| d in todo;
        connectGenerations := connectGenerations[d := connectGenerations[d] + 1];
        todo := todo - {d};
      }
    }

    method SessionIds() returns (ids: seq<DeviceId>)
      ensures Lists(ids, sessions.Keys)
    {
      ids := [];
      var todo := sessions.Keys;
      while todo != {}
        invariant todo <= sessions.Keys
        invariant forall i :: 0 <= i < |ids| ==> ids[i] in sessions
        invariant forall d :: d in sessions && d !in todo ==> d in ids
        decreases |todo|
      {
        var d :| d in todo;
        ids := ids + [d];
        todo := todo - {d};
      }
    }

    method ShutDown() returns (ids: seq<DeviceId>)
      requires Valid()
      modifies this
      ensures Lists(ids, old(sessions).Keys)
      ensures View() == BeginShutdown(old(View()), ids) && Valid() && QuietKept(old(View()), View())
      ensures shutdownRequested && connectionQueue == [] && sessions == map[]
    {
      ids := SessionIds();
      UserKeeps(View(), ShutdownBegan(ids));
      ShutdownStops(View(), ids);
      assert UserDoes(View(), ShutdownBegan(ids)) == BeginShutdown(View(), ids);
      hide *;
      StopEverything(ids);
    }

    method StopEverything(ids: seq<DeviceId>)
      modifies this
      ensures View() == BeginShutdown(old(View()), ids)
    {
      if shutdownRequested {
        return;
      }
      hide CloseAll, Halted;
      Halt();
      CloseSessions(ids);
    }

    /** No request survives, and none in flight stays current. */
    method Halt()
      modifies `shutdownRequested, `connectionQueue, `connectGenerations
      ensures View() == Halted(old(View()))
    {
      hide BumpAll;
      shutdownRequested := true;
      connectionQueue := [];
      BumpGenerations();
    }
  }

  /** A turn recalls its own device and keeps those before it. */
  lemma EarlierStayRecalled(w: World, w': World, ids: seq<DeviceId>, i: nat, discovered: set<DeviceId>)
    requires i < |ids| && w.reconnectEnabled && !w.stopping && w' == RememberOne(w, ids[i], ids[i] in discovered)
    requires forall k :: 0 <= k < i ==> BackInLine(w, ids[k], ids[k] in discovered)
    ensures forall k :: 0 <= k < i + 1 ==> BackInLine(w', ids[k], ids[k] in discovered)
  {
    hide RememberOne, BackInLine, OthersRecalled;
    TurnRecalls(w, ids[i], ids[i] in discovered);
    forall k | 0 <= k < i + 1 ensures BackInLine(w', ids[k], ids[k] in discovered) {
      if ids[k] != ids[i] {
        StaysRecalled(w, w', ids[i], ids[k], ids[k] in discovered);
      }
    }
  }

  /** QueueRememberedDevices as a function: one turn after another over desiredDevices. */
  function RememberAll(w: World, ids: seq<DeviceId>, discovered: set<DeviceId>): World
    decreases |ids|
  {
    if ids == [] then w
    else
      RememberOneEffect(w, ids[0], ids[0] in discovered);
      RememberAll(RememberOne(w, ids[0], ids[0] in discovered), ids[1..], discovered)
  }

  lemma RememberOneEffect(w: World, d: DeviceId, discovered: bool)
    ensures
      var w' := RememberOne(w, d, discovered);
      && w'.stopping == w.stopping && w'.reconnectEnabled == w.reconnectEnabled && w'.desired == w.desired
  {
    var v := w.(pending := w.pending + {d});
    CloseEffect(v, d, None, true);
    hide CloseSession;
  }

  lemma {:induction false} RememberNone(w: World, ids: seq<DeviceId>, discovered: set<DeviceId>)
    requires (w.stopping || !w.reconnectEnabled)
    ensures RememberAll(w, ids, discovered) == w
    decreases |ids|
  {
    if ids != [] {
      RememberNone(w, ids[1..], discovered);
    }
  }
}
