/** Link objects: whatever workers, closers and clicks interleave, a device never has two
    AudioPlaybackConnection objects whose Close has not yet returned. SlotsOk: an unfinished
    creation is the one in its device's slot. OwnersOk and HoldingsOk: a device's link is in one
    kind of hands at a time (a creation, a session or a retired session's flow), and it is an
    open link of that device. AllHeld: no open link is forgotten. AttemptSlotOk: an attempt that
    has not created its link yet finds its device's slot free. */
module ProtocolLinks {
  import opened Wrappers
  import opened Records
  import opened Protocol
  import opened ProtocolCore
  import opened ProtocolFlows
  import opened ConnectionCreation

  // ---------------------------------------------------------------- the invariant

  /** A creation that may still produce or hold a link. */
  predicate Potential(c: Creation) { !c.Finished() && !c.claimed }

  /** A retired session's link whose Close has not returned. */
  predicate Retiring(x: Flow) { x.link.Some? && !x.closed }

  predicate SlotsOk(slots: map<DeviceId, CreationId>, creations: seq<Creation>) {
    && (forall d :: d in slots ==> slots[d] < |creations| && creations[slots[d]].device == d)
    && (forall c :: 0 <= c < |creations| ==> Sound(creations[c]))
    && (forall c :: 0 <= c < |creations| && !creations[c].Finished() ==>
          creations[c].device in slots && slots[creations[c].device] == c)
  }

  predicate NoRetiring(flows: seq<Flow>, d: DeviceId) {
    forall i :: 0 <= i < |flows| && flows[i].device == d ==> !Retiring(flows[i])
  }

  /** A device's link is in one kind of hands at a time. */
  predicate OwnersOk(sessions: map<DeviceId, Session>, flows: seq<Flow>, creations: seq<Creation>) {
    && (forall c :: 0 <= c < |creations| && Potential(creations[c]) ==>
          && (creations[c].device in sessions ==> sessions[creations[c].device].link.None?)
          && NoRetiring(flows, creations[c].device))
    && (forall d :: d in sessions && sessions[d].link.Some? ==> NoRetiring(flows, d))
    && (forall i, j :: 0 <= i < j < |flows| && Retiring(flows[i]) && Retiring(flows[j]) ==>
        flows[i].device != flows[j].device)
  }

  predicate OpenLink(links: seq<Link>, l: LinkId, d: DeviceId) {
    l < |links| && links[l].device == d && !links[l].closed
  }

  /** Every holder holds an open link of its own device. */
  predicate HoldingsOk(sessions: map<DeviceId, Session>, flows: seq<Flow>, creations: seq<Creation>, links: seq<Link>) {
    && (forall d :: d in sessions && sessions[d].link.Some? ==> OpenLink(links, sessions[d].link.value, d))
    && (forall i :: 0 <= i < |flows| && Retiring(flows[i]) ==> OpenLink(links, flows[i].link.value, flows[i].device))
    && (forall c :: 0 <= c < |creations| && creations[c].Held().Some? ==>
          OpenLink(links, creations[c].Held().value, creations[c].device))
  }

  predicate HeldByCreation(d: DeviceId, l: LinkId, slots: map<DeviceId, CreationId>, creations: seq<Creation>) {
    d in slots && slots[d] < |creations| && creations[slots[d]].Held() == Some(l)
  }

  predicate HeldByFlow(l: LinkId, flows: seq<Flow>) {
    exists i :: 0 <= i < |flows| && Retiring(flows[i]) && flows[i].link == Some(l)
  }

  predicate Held(d: DeviceId, l: LinkId, sessions: map<DeviceId, Session>, flows: seq<Flow>,
                 slots: map<DeviceId, CreationId>, creations: seq<Creation>) {
    || (d in sessions && sessions[d].link == Some(l))
    || HeldByCreation(d, l, slots, creations)
    || HeldByFlow(l, flows)
  }

  /** No open link is forgotten. */
  predicate AllHeld(sessions: map<DeviceId, Session>, flows: seq<Flow>, slots: map<DeviceId, CreationId>,
                    creations: seq<Creation>, links: seq<Link>) {
    forall l :: 0 <= l < |links| && !links[l].closed ==> Held(links[l].device, l, sessions, flows, slots, creations)
  }

  predicate BeforeCreation(pc: Pc) {
    pc.WaitingOldFlow? || pc.EnteringRecovery? || pc.JoiningRecovery? || pc.Recovering() || pc.AfterRecovery?
      || pc.LookingUp?
  }

  predicate AttemptSlotOk(worker: Worker, slots: map<DeviceId, CreationId>, creations: seq<Creation>) {
    worker.Running? ==>
      && (BeforeCreation(worker.pc) ==> worker.request.device !in slots)
      && (worker.pc.Creating? ==>
            var c := worker.pc.creation;
            && c < |creations| && creations[c].device == worker.request.device
            && !creations[c].Released() && !creations[c].Finished())
  }

  predicate Links(w: World) {
    && SlotsOk(w.slots, w.creations)
    && OwnersOk(w.sessions, w.flows, w.creations)
    && HoldingsOk(w.sessions, w.flows, w.creations, w.links)
    && AllHeld(w.sessions, w.flows, w.slots, w.creations, w.links)
    && AttemptSlotOk(w.worker, w.slots, w.creations)
  }

  lemma LinksInitially(w: World)
    requires Initial(w)
    ensures Links(w)
  {
  }

  // ---------------------------------------------------------------- who holds a link

  /** Two links of one device cannot be in hands of different kinds. */
  lemma HolderDecides(w: World, d: DeviceId, l: LinkId, m: LinkId)
    requires Links(w) && OpenLink(w.links, l, d) && OpenLink(w.links, m, d)
    requires Held(d, l, w.sessions, w.flows, w.slots, w.creations)
    requires Held(d, m, w.sessions, w.flows, w.slots, w.creations)
    ensures l == m
  {
    hide AttemptSlotOk, AllHeld;
    if HeldByFlow(l, w.flows) {
      var i :| 0 <= i < |w.flows| && Retiring(w.flows[i]) && w.flows[i].link == Some(l);
      assert !NoRetiring(w.flows, d);
    }
    if HeldByFlow(m, w.flows) {
      var j :| 0 <= j < |w.flows| && Retiring(w.flows[j]) && w.flows[j].link == Some(m);
      assert !NoRetiring(w.flows, d);
    }
  }

  // ---------------------------------------------------------------- closing a session

  /** The retired flow takes over exactly the session's link. */
  lemma RetiredTakesLink(w: World, d: DeviceId, cleanAudio: bool)
    requires Flows(w) && d in w.sessions
    ensures
      var (f, y) := RetiredFlow(w, d, cleanAudio);
      && f <= |w.flows| && y.device == d && y.link == w.sessions[d].link && !y.closed
      && (f < |w.flows| ==> w.flows[f].device == d && w.flows[f].link.None?)
  {
    hide RecoveryFlowsOk;
    assert SessionFlowOk(d, w.sessions[d], w.flows, w.flowTasks, w.worker);
    var (f, y) := RetiredFlow(w, d, cleanAudio);
    if f < |w.flows| {
      assert FlowOk(w.flows, w.flows[f], f);
    }
  }

  lemma RetireOwners(sessions: map<DeviceId, Session>, flows: seq<Flow>, creations: seq<Creation>, d: DeviceId,
                     f: FlowId, y: Flow)
    requires OwnersOk(sessions, flows, creations) && d in sessions
    requires f <= |flows| && y.device == d && y.link == sessions[d].link && !y.closed
    requires f < |flows| ==> flows[f].device == d && flows[f].link.None?
    ensures OwnersOk(sessions - {d}, Put(flows, f, y), creations)
  {
    var flows' := Put(flows, f, y);
    forall x | x != d && NoRetiring(flows, x) ensures NoRetiring(flows', x) {
    }
    if y.link.None? && NoRetiring(flows, d) {
      assert NoRetiring(flows', d);
    }
    forall i, j | 0 <= i < j < |flows'| && Retiring(flows'[i]) && Retiring(flows'[j])
      ensures flows'[i].device != flows'[j].device
    {
      if i == f || j == f {
        assert NoRetiring(flows, d);
      }
    }
    forall c | 0 <= c < |creations| && Potential(creations[c])
      ensures NoRetiring(flows', creations[c].device)
    {
      assert NoRetiring(flows, creations[c].device);
    }
  }

  lemma RetireHoldings(sessions: map<DeviceId, Session>, flows: seq<Flow>, creations: seq<Creation>, links: seq<Link>,
                       d: DeviceId, f: FlowId, y: Flow)
    requires HoldingsOk(sessions, flows, creations, links) && d in sessions
    requires f <= |flows| && y.device == d && y.link == sessions[d].link
    ensures HoldingsOk(sessions - {d}, Put(flows, f, y), creations, links)
  {
  }

  lemma RetireHeld(sessions: map<DeviceId, Session>, flows: seq<Flow>, slots: map<DeviceId, CreationId>,
                   creations: seq<Creation>, links: seq<Link>, d: DeviceId, f: FlowId, y: Flow)
    requires AllHeld(sessions, flows, slots, creations, links) && d in sessions
    requires f <= |flows| && y.link == sessions[d].link && !y.closed
    requires f < |flows| ==> flows[f].link.None?
    ensures AllHeld(sessions - {d}, Put(flows, f, y), slots, creations, links)
  {
    var flows' := Put(flows, f, y);
    forall l | 0 <= l < |links| && !links[l].closed
      ensures Held(links[l].device, l, sessions - {d}, flows', slots, creations)
    {
      if HeldByFlow(l, flows) {
        var i :| 0 <= i < |flows| && Retiring(flows[i]) && flows[i].link == Some(l);
        assert flows'[i] == flows[i];
        assert HeldByFlow(l, flows');
      }
      if links[l].device == d && sessions[d].link == Some(l) {
        assert flows'[f] == y;
        assert HeldByFlow(l, flows');
      }
    }
  }

  lemma CloseLinks(w: World, d: DeviceId, generation: Option<nat>, skip: bool)
    requires Links(w) && Flows(w)
    ensures Links(CloseSession(w, d, generation, skip))
  {
    if Closes(w, d, generation) {
      var clean := CleansAudio(w, d, skip);
      var (f, y) := RetiredFlow(w, d, clean);
      RetiredTakesLink(w, d, clean);
      hide RetiredFlow, CleansAudio, Put, Flows, SlotsOk, OwnersOk, HoldingsOk, AllHeld, AttemptSlotOk;
      RetireOwners(w.sessions, w.flows, w.creations, d, f, y);
      RetireHoldings(w.sessions, w.flows, w.creations, w.links, d, f, y);
      RetireHeld(w.sessions, w.flows, w.slots, w.creations, w.links, d, f, y);
    }
  }

  lemma {:induction false} CloseAllLinks(w: World, ids: seq<DeviceId>)
    requires Links(w) && Flows(w) && Marked(w)
    ensures Links(CloseAll(w, ids))
    decreases |ids|
  {
    hide Links, Flows, CloseSession;
    if ids != [] {
      CloseLinks(w, ids[0], None, false);
      CloseFlows(w, ids[0], None, false);
      CloseEffect(w, ids[0], None, false);
      CloseAllLinks(CloseSession(w, ids[0], None, false), ids[1..]);
    }
  }

  // ---------------------------------------------------------------- steps around the links

  predicate SameHolders(w: World, w': World) {
    && w'.sessions == w.sessions && w'.flows == w.flows && w'.slots == w.slots
    && w'.creations == w.creations && w'.links == w.links
  }

  lemma SameLinks(w: World, w': World)
    requires Links(w) && SameHolders(w, w') && AttemptSlotOk(w'.worker, w'.slots, w'.creations)
    ensures Links(w')
  {
    hide SlotsOk, OwnersOk, HoldingsOk, AllHeld, AttemptSlotOk;
  }

  lemma PlaceLinks(w: World, w': World)
    requires Links(w) && ProtocolFlows.SameMachinery(w, w')
    ensures Links(w')
  {
    SameLinks(w, w');
  }

  lemma EnqueueLinks(w: World, d: DeviceId, hasSnapshot: bool, mode: Mode, retry: Option<Request>)
    requires Links(w) && Flows(w)
    ensures Links(Enqueue(w, d, hasSnapshot, mode, retry))
  {
    if Admitted(w, d, mode) {
      var v := if mode.Forced? then CloseSession(w, d, None, true) else w;
      CloseLinks(w, d, None, true);
      PlaceMachinery(v, d, hasSnapshot, mode, retry);
      hide CloseSession, Place, Flows, Links;
      PlaceLinks(v, Place(v, d, hasSnapshot, mode, retry));
    }
  }

  lemma DisconnectLinks(w: World, d: DeviceId)
    requires Links(w) && Flows(w)
    ensures Links(Disconnect(w, d))
  {
    var v := Withdrawn(w, d);
    hide CloseSession, Flows, Links, WithoutDevice, Without, Generation;
    SameFlows(w, v);
    IdleLinks(w, v);
    CloseLinks(v, d, None, false);
  }

  lemma MaybeReconnectLinks(w: World, d: DeviceId)
    requires Links(w) && Flows(w)
    ensures Links(MaybeReconnect(w, d))
  {
    hide Enqueue, Flows, Links;
    EnqueueLinks(w, d, true, Automatic, None);
  }

  lemma AppearsLinks(w: World, d: DeviceId, newlyPresent: bool)
    requires Links(w) && Flows(w)
    ensures Links(DeviceAppears(w, d, newlyPresent))
  {
    hide Flows, MaybeReconnect;
    var v := w.(queue := ResetNotBefore(w.queue, d));
    SameFlows(w, v);
    SameLinks(w, v);
    hide Links;
    MaybeReconnectLinks(w, d);
    MaybeReconnectLinks(v, d);
  }

  lemma RememberLinks(w: World, d: DeviceId, discovered: bool)
    requires Links(w) && Flows(w)
    ensures Links(RememberOne(w, d, discovered))
  {
    var v := w.(pending := w.pending + {d});
    SameFlows(w, v);
    SameLinks(w, v);
    hide Flows, Links, MaybeReconnect;
    MaybeReconnectLinks(v, d);
  }

  lemma LinkClosedLinks(w: World, d: DeviceId, generation: nat, link: LinkId, readsClosed: bool)
    requires Links(w) && Flows(w)
    ensures Links(LinkClosed(w, d, generation, link, readsClosed))
  {
    var v := Muted(w, d);
    SameFlows(w, v);
    SameLinks(w, v);
    hide CloseSession, Flows, Links;
    CloseLinks(v, d, Some(generation), true);
  }

  lemma ShutdownLinks(w: World, ids: seq<DeviceId>)
    requires Links(w) && Flows(w) && Marked(w)
    ensures Links(BeginShutdown(w, ids))
  {
    var v := Halted(w);
    SameFlows(w, v);
    SameLinks(w, v);
    hide CloseAll, Flows, Links;
    CloseAllLinks(v, ids);
  }

  lemma IdleLinks(w: World, w': World)
    requires Links(w) && SameHolders(w, w') && w'.worker == w.worker
    ensures Links(w')
  {
    SameLinks(w, w');
  }

  lemma UserLinks(w: World, e: Event)
    requires Links(w) && Flows(w) && Footing(w) && UserEnabled(w, e)
    ensures Links(UserDoes(w, e))
  {
    hide Flows, Links, Enqueue, Disconnect, DeviceAppears, RememberOne, LinkClosed, BeginShutdown, Lists;
    if e.QuickClicked? {
      DisconnectLinks(w, e.device);
      EnqueueLinks(w, e.device, true, Quick, None);
    } else if e.ForceClicked? {
      EnqueueLinks(w, e.device, false, Forced, None);
    } else if e.Appeared? {
      AppearsLinks(w, e.device, e.newlyPresent);
    } else if e.Left? {
      IdleLinks(w, DeviceLeaves(w, e.device));
    } else if e.Remembered? {
      RememberLinks(w, e.device, e.discovered);
    } else if e.ReconnectSet? {
      IdleLinks(w, w.(reconnectEnabled := e.on));
    } else if e.ClosedReported? {
      LinkClosedLinks(w, e.device, e.generation, e.link, e.readsClosed);
    } else {
      ShutdownLinks(w, e.ids);
    }
  }

  // ---------------------------------------------------------------- the worker's moves

  /** The attempt moves on without touching links, slots or creations. */
  predicate PlainMove(worker: Worker, worker': Worker) {
    worker'.Running? ==>
      || worker'.pc.Popped?
      || (!BeforeCreation(worker'.pc) && !worker'.pc.Creating?)
      || (worker.Running? && worker'.request.device == worker.request.device
          && BeforeCreation(worker.pc) && BeforeCreation(worker'.pc))
  }

  lemma PlainLinks(w: World, w': World)
    requires Links(w) && SameHolders(w, w') && PlainMove(w.worker, w'.worker)
    ensures Links(w')
  {
    SameLinks(w, w');
  }

  /** Sessions may change anything but which links they hold. */
  lemma RelabelLinks(w: World, w': World)
    requires Links(w) && PlainMove(w.worker, w'.worker)
    requires w'.flows == w.flows && w'.slots == w.slots && w'.creations == w.creations && w'.links == w.links
    requires w'.sessions.Keys == w.sessions.Keys
    requires forall d :: d in w.sessions ==> w'.sessions[d].link == w.sessions[d].link
    ensures Links(w')
  {
  }

  lemma ReturnLinks(w: World, r: Request, result: AttemptResult)
    requires Links(w) && Flows(w)
    ensures Links(CloseAndReturn(w, r, result))
  {
    CloseLinks(w, r.device, Some(r.generation), false);
    hide CloseSession, Flows;
    var v := CloseSession(w, r.device, Some(r.generation), false);
    PlainLinks(v, Return(v, r, result));
  }

  lemma FinishLinks(w: World, r: Request, result: AttemptResult, now: nat)
    requires Links(w) && Flows(w) && w.worker.Running? && w.worker.pc.Returned? && w.worker.request == r
    ensures Links(FinishAttempt(w, r, result, now))
  {
    var failed := !result.Success? && !result.Cancelled?;
    var v := w.(worker := Head, bluetooth := if failed then w.bluetooth.(needed := true) else w.bluetooth);
    SwapWorker(w, Head);
    PlainLinks(w, v);
    hide Enqueue, Links, Flows;
    EnqueueLinks(v, r.device, false, r.mode, Some(RetryRequest(r, now)));
  }

  lemma ThrewLinks(w: World, now: nat)
    requires Links(w) && Flows(w) && Footing(w) && w.worker.Running? && w.worker.pc.Threw?
    ensures Links(AttemptThrew(w, now))
  {
    hide Links, Flows, Footing, AttemptThrew, FinishAttempt, CloseSession;
    var r := w.worker.request;
    var result := ThrewReturns(w, now);
    var v := CloseAndReturn(w, r, result);
    ReturnFlows(w, r, result);
    ReturnLinks(w, r, result);
    FinishLinks(v, r, result, now);
  }

  /** Emplacing a session without a link, after the old slot proved finished. */
  lemma EmplaceLinks(w: World, w': World, s: Session)
    requires Links(w) && w.worker.Running? && w.worker.request.device !in w.sessions && s.link.None?
    requires !SlotBusy(w, w.worker.request.device)
    requires
      var d := w.worker.request.device;
      && w'.slots == w.slots - {d} && w'.sessions == w.sessions[d := s]
      && w'.flows == w.flows && w'.creations == w.creations && w'.links == w.links
      && w'.worker.Running? && w'.worker.request.device == d && BeforeCreation(w'.worker.pc)
    ensures Links(w')
  {
    forall l | 0 <= l < |w'.links| && !w'.links[l].closed
      ensures Held(w'.links[l].device, l, w'.sessions, w'.flows, w'.slots, w'.creations)
    {
      assert Held(w.links[l].device, l, w.sessions, w.flows, w.slots, w.creations);
    }
  }

  lemma BeginsLinks(w: World)
    requires Links(w) && w.worker.Running? && w.worker.pc.Popped?
    ensures Links(AttemptBegins(w))
  {
    var r := w.worker.request;
    AttemptBeginsCases(w);
    hide Links, AttemptBegins, BeginPreparation, SlotBusy;
    var w' := AttemptBegins(w);
    if w' == Return(w, r, Cancelled) || w' == Return(w, r, DeviceUnavailable) {
      PlainLinks(w, w');
    } else {
      BeginPreparationEffect(Emplaced(w, r), r);
      BeginPreparationStage(Emplaced(w, r), r);
      EmplaceLinks(w, w', Emplaced(w, r).sessions[r.device]);
    }
  }

  lemma BeginPreparationStage(w: World, r: Request)
    ensures
      var w' := BeginPreparation(w, r);
      w'.worker.Running? && BeforeCreation(w'.worker.pc)
  {
    hide RetiredFlow;
    if r.strategy.Direct? {
      assert BeginPreparation(w, r).worker == Running(r, AfterRecovery(NotRequired));
    } else {
      assert BeginPreparation(w, r).worker.pc.EnteringRecovery?;
    }
  }

  lemma OldFlowLinks(w: World)
    requires Links(w) && w.worker.Running? && w.worker.pc.WaitingOldFlow?
    ensures Links(OldFlowFinished(w))
  {
    var r := w.worker.request;
    if !IsCurrent(w, r, None) || w.stopping {
      PlainLinks(w, Return(w, r, Cancelled));
    } else {
      var v := w.(flowTasks := w.flowTasks - {r.device});
      BeginPreparationEffect(v, r);
      BeginPreparationStage(v, r);
      hide BeginPreparation, Links;
      PlainLinks(w, BeginPreparation(v, r));
    }
  }

  // ---------------------------------------------------------------- creating and handing over

  /** Past the wait for the old flow, a current session's device has no retiring link. */
  lemma NothingRetiring(w: World, d: DeviceId)
    requires Flows(w) && d in w.sessions && w.sessions[d].flow.None? && !Waits(w.worker)
    ensures NoRetiring(w.flows, d)
  {
    assert SessionFlowOk(d, w.sessions[d], w.flows, w.flowTasks, w.worker);
    forall i | 0 <= i < |w.flows| && w.flows[i].device == d ensures !Retiring(w.flows[i]) {
      DeviceFinished(w.flows, w.flowTasks, d, i);
      assert FlowOk(w.flows, w.flows[i], i);
    }
  }

  /** An attempt that has not begun its creation owns a session without link or flow. */
  predicate Unlinked(w: World) {
    w.worker.Running? && (w.worker.pc.AfterRecovery? || w.worker.pc.LookingUp?)
      && w.worker.request.device in w.sessions ==>
      w.sessions[w.worker.request.device].link.None? && w.sessions[w.worker.request.device].flow.None?
  }

  lemma CoreUnlinked(w: World)
    requires Core(w)
    ensures Unlinked(w)
  {
    hide QueueOk, SessionsOk, RadioOk, RunningOk, PendingOk, BudgetOk, ApartFromQueue;
  }

  lemma NewCreation(w: World, d: DeviceId)
    requires Links(w) && d !in w.slots && NoRetiring(w.flows, d)
    requires d in w.sessions ==> w.sessions[d].link.None?
    ensures
      var creations := w.creations + [New(d)];
      var slots := w.slots[d := |w.creations|];
      && SlotsOk(slots, creations) && OwnersOk(w.sessions, w.flows, creations)
      && HoldingsOk(w.sessions, w.flows, creations, w.links) && AllHeld(w.sessions, w.flows, slots, creations, w.links)
  {
    var creations := w.creations + [New(d)];
    var slots := w.slots[d := |w.creations|];
    forall l | 0 <= l < |w.links| && !w.links[l].closed
      ensures Held(w.links[l].device, l, w.sessions, w.flows, slots, creations)
    {
      assert Held(w.links[l].device, l, w.sessions, w.flows, w.slots, w.creations);
    }
  }

  lemma CreatingLinks(w: World)
    requires Links(w) && w.worker.Running? && BeforeCreation(w.worker.pc)
    requires NoRetiring(w.flows, w.worker.request.device)
    requires w.worker.request.device in w.sessions ==> w.sessions[w.worker.request.device].link.None?
    ensures
      var r := w.worker.request;
      Links(At(NewSlot(w, r.device), r, Creating(|w.creations|)))
  {
    NewCreation(w, w.worker.request.device);
    hide SlotsOk, OwnersOk, HoldingsOk, AllHeld;
  }

  lemma BeginCreationLinks(w: World, fault: Option<AttemptResult>)
    requires Links(w) && Flows(w) && Unlinked(w) && w.worker.Running?
    requires w.worker.pc.AfterRecovery? || w.worker.pc.LookingUp?
    requires IsCurrent(w, w.worker.request, None)
    ensures Links(BeginCreation(w, w.worker.request, fault))
  {
    var r := w.worker.request;
    var v := w.(sessions := w.sessions[r.device := w.sessions[r.device].(phase := Phase.Starting)]);
    NothingRetiring(w, r.device);
    hide Links, Flows, NoRetiring;
    if fault.Some? {
      RelabelOwn(w, At(v, r, Settling(fault.value, None)));
    } else {
      RelabelOwn(w, v);
      CreatingLinks(v);
    }
  }

  /** The handed-over link is held by the session, every other open link as before. */
  lemma TakenHeld(w: World, c: CreationId, x: Creation, l: LinkId)
    requires AllHeld(w.sessions, w.flows, w.slots, w.creations, w.links)
    requires w.worker.Running? && w.worker.request.device in w.sessions && c < |w.creations|
    requires w.creations[c].Held() == Some(l) && w.creations[c].device == w.worker.request.device
    requires HoldingsOk(w.sessions, w.flows, w.creations, w.links)
    requires w.sessions[w.worker.request.device].link.None?
    ensures var w' := HandOver(UpdateCreation(w, c, x), w.worker.request, l);
            AllHeld(w'.sessions, w'.flows, w'.slots, w'.creations, w'.links)
  {
    var w' := HandOver(UpdateCreation(w, c, x), w.worker.request, l);
    forall k | 0 <= k < |w'.links| && !w'.links[k].closed
      ensures Held(w'.links[k].device, k, w'.sessions, w'.flows, w'.slots, w'.creations)
    {
      assert Held(w.links[k].device, k, w.sessions, w.flows, w.slots, w.creations);
    }
  }

  /** Take moves the link from the creation to the session that waited for it. */
  lemma TakenLinks(w: World, c: CreationId, x: Creation, l: LinkId)
    requires Links(w) && w.worker.Running? && w.worker.pc == Creating(c) && w.worker.request.device in w.sessions
    requires c < |w.creations| && Potential(w.creations[c]) && w.creations[c].Held() == Some(l)
    requires x.device == w.creations[c].device && x.stage == w.creations[c].stage && Sound(x) && x.claimed
      && x.Held().None?
    ensures Links(HandOver(UpdateCreation(w, c, x), w.worker.request, l))
  {
    hide Sound, AllHeld;
    TakenHeld(w, c, x, l);
  }

  /** A creation that holds no link afterwards and is answered for. */
  lemma ReleaseLinks(w: World, c: CreationId, x: Creation, pc': Pc)
    requires Links(w) && w.worker.Running? && c < |w.creations|
    requires x.device == w.creations[c].device && x.stage == w.creations[c].stage && Sound(x)
    requires x.Held() == w.creations[c].Held() && (Potential(x) ==> Potential(w.creations[c]))
    requires !BeforeCreation(pc') && !pc'.Creating?
    ensures Links(At(UpdateCreation(w, c, x), w.worker.request, pc'))
  {
    hide Sound;
    var w' := At(UpdateCreation(w, c, x), w.worker.request, pc');
    forall k | 0 <= k < |w'.links| && !w'.links[k].closed
      ensures Held(w'.links[k].device, k, w'.sessions, w'.flows, w'.slots, w'.creations)
    {
      assert Held(w.links[k].device, k, w.sessions, w.flows, w.slots, w.creations);
    }
  }

  lemma AbandonLinks(w: World, c: CreationId, pc': Pc)
    requires Links(w) && w.worker.Running? && c < |w.creations|
    requires !BeforeCreation(pc') && !pc'.Creating?
    ensures Links(At(UpdateCreation(w, c, Abandon(w.creations[c])), w.worker.request, pc'))
  {
    ReleaseLinks(w, c, Abandon(w.creations[c]), pc');
  }

  lemma CreationReadyLinks(w: World, fault: AttemptResult)
    requires Links(w) && w.worker.Running? && w.worker.pc.Creating? && w.worker.pc.creation < |w.creations|
    requires w.creations[w.worker.pc.creation].Ready()
    ensures Links(CreationReady(w, fault))
  {
    hide Links, Abandon, Take, Claim;
    var r := w.worker.request;
    if !IsCurrent(w, r, None) || w.stopping {
      AbandonLinks(w, w.worker.pc.creation, Returned(Cancelled));
    } else {
      ClaimLinks(w, fault);
    }
  }

  /** What a creation that nobody abandoned or took can answer. */
  predicate Answers(x: Creation, after: Creation, result: TakeResult) {
    if !result.Taken? then after == x
    else
      && Sound(after) && after.device == x.device && after.stage == x.stage && after.claimed && after.Held().None?
      && x.Held() == result.connection && (result.connection.Some? ==> Potential(x))
  }

  lemma TakeAnswers(x: Creation)
    requires Sound(x) && !x.Released() && x.Ready() && !x.Finished()
    ensures Answers(x, Take(x).0, Take(x).1)
  {
  }

  lemma CreationInHand(w: World, c: CreationId)
    requires Links(w) && w.worker.Running? && w.worker.pc == Creating(c) && c < |w.creations|
    ensures Sound(w.creations[c]) && !w.creations[c].Released() && !w.creations[c].Finished()
  {
    hide OwnersOk, HoldingsOk, AllHeld, Sound;
  }

  lemma ClaimLinks(w: World, fault: AttemptResult)
    requires Links(w) && w.worker.Running? && w.worker.pc.Creating? && w.worker.pc.creation < |w.creations|
    requires w.creations[w.worker.pc.creation].Ready() && w.worker.request.device in w.sessions
    ensures
      var c := w.worker.pc.creation;
      Links(Claim(w, w.worker.request, c, Take(w.creations[c]).0, Take(w.creations[c]).1, fault))
  {
    hide Links, Claim, Take, Sound, Answers;
    var c := w.worker.pc.creation;
    CreationInHand(w, c);
    TakeAnswers(w.creations[c]);
    AnsweredLinks(w, c, Take(w.creations[c]).0, Take(w.creations[c]).1, fault);
  }

  lemma AnsweredLinks(w: World, c: CreationId, after: Creation, result: TakeResult, fault: AttemptResult)
    requires Links(w) && w.worker.Running? && w.worker.pc == Creating(c) && w.worker.request.device in w.sessions
    requires c < |w.creations| && Answers(w.creations[c], after, result)
    ensures Links(Claim(w, w.worker.request, c, after, result, fault))
  {
    hide Links, HandOver, At, Abandon, Sound;
    if !result.Taken? {
      AbandonLinks(w, c, Settling(fault, None));
    } else if result.connection.None? {
      ReleaseLinks(w, c, after, Settling(DeviceUnavailable, None));
    } else {
      TakenLinks(w, c, after, result.connection.value);
    }
  }

  // ---------------------------------------------------------------- commit and other segments

  lemma CommitLinks(w: World, flowStarts: bool)
    requires Links(w) && w.worker.Running? && w.worker.request.device in w.sessions
    ensures Links(Commit(w, w.worker.request, flowStarts))
  {
    var r := w.worker.request;
    CommitEffect(w, r, flowStarts);
    hide Links, Commit;
    if flowStarts && (!r.mode.Automatic? || r.prepareBeforeConnect) {
      NewFlowLinks(w, Commit(w, r, flowStarts), NewMonitor(r.device));
    } else {
      RelabelLinks(w, Commit(w, r, flowStarts));
    }
  }

  lemma NewFlowLinks(w: World, w': World, y: Flow)
    requires Links(w) && PlainMove(w.worker, w'.worker) && y.link.None?
    requires w'.flows == w.flows + [y] && w'.slots == w.slots && w'.creations == w.creations && w'.links == w.links
    requires w'.sessions.Keys == w.sessions.Keys
    requires forall d :: d in w.sessions ==> w'.sessions[d].link == w.sessions[d].link
    ensures Links(w')
  {
    assert forall i :: 0 <= i < |w'.flows| && Retiring(w'.flows[i]) ==> i < |w.flows| && w'.flows[i] == w.flows[i];
    forall d | NoRetiring(w.flows, d) ensures NoRetiring(w'.flows, d) {
    }
    forall l | 0 <= l < |w'.links| && !w'.links[l].closed
      ensures Held(w'.links[l].device, l, w'.sessions, w'.flows, w'.slots, w'.creations)
    {
      assert Held(w.links[l].device, l, w.sessions, w.flows, w.slots, w.creations);
      if HeldByFlow(l, w.flows) {
        var i :| 0 <= i < |w.flows| && Retiring(w.flows[i]) && w.flows[i].link == Some(l);
        assert w'.flows[i] == w.flows[i];
        assert HeldByFlow(l, w'.flows);
      }
    }
  }

  lemma SettleLinks(w: World, stillOpened: bool, flowStarts: bool)
    requires Links(w) && Flows(w) && w.worker.Running? && w.worker.pc.Settling?
    ensures Links(Settle(w, stillOpened, flowStarts))
  {
    hide CloseAndReturn, Commit, Links, Flows;
    var r := w.worker.request;
    var pc := w.worker.pc;
    var result := if pc.result.Success? && !stillOpened then ClosedUnexpectedly else pc.result;
    if !IsCurrent(w, r, pc.current) || w.stopping {
      ReturnLinks(w, r, Lost(w, r));
    } else if result.Success? {
      CommitLinks(w, flowStarts);
    } else {
      ReturnLinks(w, r, result);
      IdleLinks(CloseAndReturn(w, r, result), Settle(w, stillOpened, flowStarts));
    }
  }

  lemma AfterPreparationLinks(w: World, fault: Option<AttemptResult>)
    requires Links(w) && Flows(w) && w.worker.Running? && w.worker.pc.AfterRecovery? && Unlinked(w)
    ensures Links(AfterPreparation(w, fault))
  {
    hide CloseAndReturn, BeginCreation, Links, Flows;
    var r := w.worker.request;
    if IsCurrent(w, r, None) {
      PlainLinks(w, At(w, r, LookingUp));
      BeginCreationLinks(w, fault);
      hide IsCurrent, At;
      ReturnLinks(w, r, Cancelled);
      ReturnLinks(w, r, BluetoothRecoveryFailed);
    } else {
      ReturnLinks(w, r, Cancelled);
      hide IsCurrent;
    }
  }

  lemma LookupLinks(w: World, fault: Option<AttemptResult>)
    requires Links(w) && Flows(w) && w.worker.Running? && w.worker.pc.LookingUp? && Unlinked(w)
    ensures Links(LookupEnds(w, fault))
  {
    hide CloseAndReturn, BeginCreation, Links, Flows;
    var r := w.worker.request;
    ReturnLinks(w, r, Cancelled);
    if IsCurrent(w, r, None) {
      BeginCreationLinks(w, fault);
    }
  }

  lemma OpeningLinks(w: World, e: Event)
    requires Links(w) && Flows(w) && Footing(w) && Unlinked(w) && OpeningEnabled(w, e)
    ensures Links(OpeningDoes(w, e))
  {
    hide Links, Flows, Footing, Unlinked, AttemptBegins, OldFlowFinished, AfterPreparation, LookupEnds, FlowAwaitedAt;
    if e.AttemptBegan? {
      BeginsLinks(w);
    } else if e.OldFlowAwaited? {
      OldFlowLinks(w);
    } else if e.OuterThrew? {
      PlainLinks(w, At(w, w.worker.request, Threw(e.timedOut)));
    } else if e.PreparationChecked? {
      AfterPreparationLinks(w, e.fault);
    } else {
      LookupLinks(w, e.fault);
    }
  }

  lemma RadioFoundLinks(w: World, ids: seq<DeviceId>, tasks: seq<FlowId>)
    requires Links(w) && Flows(w) && Marked(w) && w.worker.Running? && w.worker.pc.FindingRadio?
    ensures Links(RadioFound(w, ids, tasks))
  {
    CloseAllLinks(w, ids);
    CloseAllEffect(w, ids);
    hide CloseAll, Links, Flows;
    var v := if w.worker.pc.allow then CloseAll(w, ids) else w;
    PlainLinks(v, At(v, w.worker.request, AwaitingFlows(w.worker.pc.allow, tasks)));
  }

  lemma RecoveryLinks(w: World, e: Event)
    requires Links(w) && Flows(w) && Footing(w) && RecoveryEnabled(w, e)
    ensures Links(RecoveryDoes(w, e))
  {
    hide Links, Flows, RadioTransaction.Outcome, RadioFound, CloseAll, Lists, FlowAwaitedAt, RecoveryGate,
      RecoveryFinished;
    if e.GateRan? {
      GateLinks(w);
    } else if e.RadioResolved? {
      RadioFoundLinks(w, e.ids, e.tasks);
    } else if e.RecoveryEnded? {
      FinishedEffect(w);
      PlainLinks(w, RecoveryFinished(w));
    } else {
      PlainLinks(w, RecoveryDoes(w, e));
    }
  }

  lemma GateLinks(w: World)
    requires Links(w) && w.worker.Running? && w.worker.pc.EnteringRecovery?
    ensures Links(RecoveryGate(w))
  {
    GateEffect(w);
    GateStage(w);
    hide Links, RecoveryGate;
    PlainLinks(w, RecoveryGate(w));
  }

  lemma GateStage(w: World)
    requires w.worker.Running? && w.worker.pc.EnteringRecovery?
    ensures RecoveryGate(w).worker.Running? && BeforeCreation(RecoveryGate(w).worker.pc)
  {
    var v := w.(bluetooth := w.bluetooth.(needed := true));
    AnsweredStage(v, w.worker.request, NotRequired);
    AnsweredStage(v, w.worker.request, UnexpectedFailure);
    hide HasLivePlayback, PreparationEnds;
  }

  lemma AnsweredStage(w: World, r: Request, outcome: Recovery)
    ensures PreparationEnds(w, r, outcome).worker.Running?
      && PreparationEnds(w, r, outcome).worker.pc == AfterRecovery(outcome)
  {
  }

  lemma RelabelOwn(w: World, w': World)
    requires Links(w) && w.worker.Running? && PlainMove(w.worker, w'.worker)
    requires w'.flows == w.flows && w'.slots == w.slots && w'.creations == w.creations && w'.links == w.links
    requires
      var d := w.worker.request.device;
      d in w.sessions && d in w'.sessions && w'.sessions == w.sessions[d := w'.sessions[d]]
      && w'.sessions[d].link == w.sessions[d].link
    ensures Links(w')
  {
    hide Links;
    RelabelLinks(w, w');
  }

  lemma StartedLinks(w: World)
    requires Links(w) && Flows(w) && w.worker.Running? && w.worker.pc.StartingLink?
    ensures Links(LinkStarted(w))
  {
    hide Links, Flows, CloseAndReturn;
    var r := w.worker.request;
    ReturnLinks(w, r, Lost(w, r));
    if IsCurrent(w, r, Some(w.worker.pc.link)) && !w.stopping {
      RelabelOwn(w, LinkStarted(w));
    }
  }

  lemma OpenedLinks(w: World, status: OpenStatus, isOpen: bool)
    requires Links(w) && Flows(w) && w.worker.Running? && w.worker.pc.OpeningLink?
    ensures Links(OpenReturned(w, status, isOpen))
  {
    OpenReturnedMove(w, status, isOpen);
    hide Links, Flows, CloseAndReturn;
    var r := w.worker.request;
    ReturnLinks(w, r, Lost(w, r));
    if IsCurrent(w, r, Some(w.worker.pc.link)) && !w.stopping {
      OpenStatusLinks(w, status, isOpen);
    }
  }

  lemma OpenStatusLinks(w: World, status: OpenStatus, isOpen: bool)
    requires Links(w) && w.worker.Running? && w.worker.pc.OpeningLink?
    requires IsCurrent(w, w.worker.request, Some(w.worker.pc.link)) && !w.stopping
    ensures Links(OpenReturned(w, status, isOpen))
  {
    hide Links, CloseAndReturn;
    if status.OpenSucceeded? {
      RelabelOwn(w, OpenReturned(w, status, isOpen));
    } else {
      PlainLinks(w, OpenReturned(w, status, isOpen));
    }
  }

  lemma OpenedWaitedLinks(w: World, isOpen: bool)
    requires Links(w) && Flows(w) && w.worker.Running? && w.worker.pc.WaitingOpened?
    ensures Links(OpenedWaited(w, isOpen))
  {
    hide Links, Flows, CloseAndReturn, IsCurrent;
    var r := w.worker.request;
    if !IsCurrent(w, r, Some(w.worker.pc.link)) || w.stopping {
      ReturnLinks(w, r, Cancelled);
    } else {
      PlainLinks(w, OpenedWaited(w, isOpen));
    }
  }

  lemma FaultLinks(w: World, fault: AttemptResult)
    requires Links(w) && LinkEnabled(w, InnerThrew(fault))
    ensures Links(AttemptFaults(w, fault))
  {
    hide Links, Abandon;
    if w.worker.pc.Creating? {
      AbandonLinks(w, w.worker.pc.creation, Settling(fault, None));
    } else {
      PlainLinks(w, AttemptFaults(w, fault));
    }
  }

  lemma LinkStepLinks(w: World, e: Event)
    requires Links(w) && Flows(w) && LinkEnabled(w, e)
    ensures Links(LinkDoes(w, e))
  {
    hide Links, Flows, CreationReady, AttemptFaults, LinkStarted, OpenReturned, OpenedWaited, Settle, Faulty;
    if e.CreationAwaited? {
      CreationReadyLinks(w, e.error);
    } else if e.InnerThrew? {
      FaultLinks(w, e.error);
    } else if e.StartAwaited? {
      StartedLinks(w);
    } else if e.OpenAwaited? {
      OpenedLinks(w, e.status, e.isOpen);
    } else if e.OpenedAwaited? {
      OpenedWaitedLinks(w, e.isOpen);
    } else {
      SettleLinks(w, e.stillOpened, e.flowStarts);
    }
  }

  // ---------------------------------------------------------------- closers and creation workers

  lemma CloserLinks(w: World, f: FlowId)
    requires Links(w) && Flows(w) && f < |w.flows| && w.flows[f].stop && !w.flows[f].closed
    ensures Links(CloserReturns(w, f))
  {
    hide Flows;
    var x := w.flows[f];
    var w' := CloserReturns(w, f);
    if x.link.Some? {
      ClosingKeepsOwners(w, w', f);
      ClosingKeepsHoldings(w, w', f);
      ClosingKeepsHeld(w, w', f);
    } else {
      NothingClosed(w, w', f);
    }
  }

  predicate FlowCloses(w: World, w': World, f: FlowId) {
    && f < |w.flows| && Retiring(w.flows[f])
    && |w'.flows| == |w.flows| && w'.flows[f].closed && w'.flows[f].device == w.flows[f].device
    && (forall i :: 0 <= i < |w.flows| && i != f ==> w'.flows[i] == w.flows[i])
    && w'.sessions == w.sessions && w'.creations == w.creations && w'.slots == w.slots && w'.worker == w.worker
    && w'.links == (if w.flows[f].link.value < |w.links|
                    then w.links[w.flows[f].link.value := w.links[w.flows[f].link.value].(closed := true)] else w.links)
  }

  lemma ClosingKeepsOwners(w: World, w': World, f: FlowId)
    requires Links(w) && FlowCloses(w, w', f)
    ensures OwnersOk(w'.sessions, w'.flows, w'.creations)
  {
    forall d | NoRetiring(w.flows, d) ensures NoRetiring(w'.flows, d) {
    }
  }

  /** Nobody else holds the link that was just closed. */
  lemma ClosingKeepsHoldings(w: World, w': World, f: FlowId)
    requires Links(w) && FlowCloses(w, w', f)
    ensures HoldingsOk(w'.sessions, w'.flows, w'.creations, w'.links)
  {
    var d := w.flows[f].device;
    assert !NoRetiring(w.flows, d);
    forall c | 0 <= c < |w.creations| && w.creations[c].Held().Some?
      ensures OpenLink(w'.links, w.creations[c].Held().value, w.creations[c].device)
    {
      assert Potential(w.creations[c]);
    }
  }

  lemma ClosingKeepsHeld(w: World, w': World, f: FlowId)
    requires Links(w) && FlowCloses(w, w', f)
    ensures AllHeld(w'.sessions, w'.flows, w'.slots, w'.creations, w'.links)
  {
    forall l | 0 <= l < |w'.links| && !w'.links[l].closed
      ensures Held(w'.links[l].device, l, w'.sessions, w'.flows, w'.slots, w'.creations)
    {
      assert Held(w.links[l].device, l, w.sessions, w.flows, w.slots, w.creations);
      if HeldByFlow(l, w.flows) {
        var i :| 0 <= i < |w.flows| && Retiring(w.flows[i]) && w.flows[i].link == Some(l);
        assert w'.flows[i] == w.flows[i];
        assert HeldByFlow(l, w'.flows);
      }
    }
  }

  /** A flow that carries no link, or changes nothing about it. */
  lemma NothingClosed(w: World, w': World, f: FlowId)
    requires Links(w) && f < |w.flows| && |w'.flows| == |w.flows|
    requires w'.flows[f].device == w.flows[f].device && w'.flows[f].link == w.flows[f].link
    requires w.flows[f].link.None? || w'.flows[f].closed == w.flows[f].closed
    requires forall i :: 0 <= i < |w.flows| && i != f ==> w'.flows[i] == w.flows[i]
    requires w'.sessions == w.sessions && w'.creations == w.creations && w'.slots == w.slots && w'.worker == w.worker
      && w'.links == w.links
    ensures Links(w')
  {
    assert forall i :: 0 <= i < |w.flows| ==>
      (Retiring(w'.flows[i]) == Retiring(w.flows[i])
       && w'.flows[i].device == w.flows[i].device && w'.flows[i].link == w.flows[i].link);
    forall d | NoRetiring(w.flows, d) ensures NoRetiring(w'.flows, d) {
    }
    forall l | 0 <= l < |w'.links| && !w'.links[l].closed
      ensures Held(w'.links[l].device, l, w'.sessions, w'.flows, w'.slots, w'.creations)
    {
      assert Held(w.links[l].device, l, w.sessions, w.flows, w.slots, w.creations);
      if HeldByFlow(l, w.flows) {
        var i :| 0 <= i < |w.flows| && Retiring(w.flows[i]) && w.flows[i].link == Some(l);
        assert Retiring(w'.flows[i]) && w'.flows[i].link == Some(l);
        assert HeldByFlow(l, w'.flows);
      }
    }
  }

  lemma FlowActedLinks(w: World, f: FlowId, a: FlowAction)
    requires Links(w) && f < |w.flows|
    ensures Links(w.(flows := w.flows[f := FlowActs(w.flows[f], a)]))
  {
    hide Links;
    NothingClosed(w, w.(flows := w.flows[f := FlowActs(w.flows[f], a)]), f);
  }

  /** A worker step that leaves what the creation holds as it was. */
  lemma QuietCreation(w: World, c: CreationId, x: Creation)
    requires Links(w) && c < |w.creations| && Sound(x) && x.device == w.creations[c].device
    requires x.Held() == w.creations[c].Held() && (Potential(x) ==> Potential(w.creations[c]))
    requires !x.Finished() ==> !w.creations[c].Finished()
    requires x.Finished() ==> x.Held().None?
    requires w.worker.Running? && w.worker.pc == Creating(c) ==> !x.Released() && !x.Finished()
    ensures Links(w.(creations := w.creations[c := x]))
  {
    hide Sound;
    var w' := w.(creations := w.creations[c := x]);
    forall k | 0 <= k < |w'.links| && !w'.links[k].closed
      ensures Held(w'.links[k].device, k, w'.sessions, w'.flows, w'.slots, w'.creations)
    {
      assert Held(w.links[k].device, k, w.sessions, w.flows, w.slots, w.creations);
    }
  }

  /** The driver created a link: the creation holds it from the start. */
  lemma DeliveredLink(w: World, c: CreationId)
    requires Links(w) && c < |w.creations| && w.creations[c].stage.Calling?
    ensures Links(CreationActs(w, c, DoDeliver(Created(|w.links|))))
  {
    var x := Deliver(w.creations[c], Created(|w.links|));
    assert Sound(w.creations[c]) && Sound(x);
    HeldFromTheStart(w, c, x);
  }

  lemma HeldFromTheStart(w: World, c: CreationId, x: Creation)
    requires Links(w) && c < |w.creations| && !w.creations[c].Finished() && w.creations[c].Held().None?
    requires x.device == w.creations[c].device && Sound(x) && !x.Finished() && x.Held() == Some(|w.links|)
    requires x.claimed == w.creations[c].claimed && x.abandoned == w.creations[c].abandoned
    ensures Links(w.(creations := w.creations[c := x], links := w.links + [Link(x.device, false)]))
  {
    var w' := w.(creations := w.creations[c := x], links := w.links + [Link(x.device, false)]);
    hide Sound;
    forall k | 0 <= k < |w'.links| && !w'.links[k].closed
      ensures Held(w'.links[k].device, k, w'.sessions, w'.flows, w'.slots, w'.creations)
    {
      if k < |w.links| {
        assert Held(w.links[k].device, k, w.sessions, w.flows, w.slots, w.creations);
      } else {
        assert w.slots[w.creations[c].device] == c;
      }
    }
  }

  /** The worker closed what nobody claimed; no one else held it. */
  lemma FinishedLink(w: World, c: CreationId)
    requires Links(w) && c < |w.creations| && w.creations[c].stage.Closing? && w.creations[c].stage.unclaimed.Some?
    ensures Links(CreationActs(w, c, DoFinish))
  {
    var w' := CreationActs(w, c, DoFinish);
    var l := w.creations[c].stage.unclaimed.value;
    assert w.creations[c].Held() == Some(l) && Potential(w.creations[c]);
    FinishedHoldings(w, w', c, l);
    forall k | 0 <= k < |w'.links| && !w'.links[k].closed
      ensures Held(w'.links[k].device, k, w'.sessions, w'.flows, w'.slots, w'.creations)
    {
      assert Held(w.links[k].device, k, w.sessions, w.flows, w.slots, w.creations);
    }
  }

  lemma FinishedHoldings(w: World, w': World, c: CreationId, l: LinkId)
    requires Links(w) && c < |w.creations| && w.creations[c].Held() == Some(l) && Potential(w.creations[c])
    requires w'.sessions == w.sessions && w'.flows == w.flows
    requires l < |w.links| && w'.links == w.links[l := w.links[l].(closed := true)]
    requires |w'.creations| == |w.creations| && w'.creations[c].Held().None?
    requires forall i :: 0 <= i < |w.creations| && i != c ==> w'.creations[i] == w.creations[i]
    ensures HoldingsOk(w'.sessions, w'.flows, w'.creations, w'.links)
  {
    var d := w.creations[c].device;
    assert NoRetiring(w.flows, d);
    forall i | 0 <= i < |w'.creations| && w'.creations[i].Held().Some?
      ensures OpenLink(w'.links, w'.creations[i].Held().value, w'.creations[i].device)
    {
      assert !w.creations[i].Finished();
    }
  }

  lemma CreationActedLinks(w: World, c: CreationId, a: ConnectionCreation.Action)
    requires Links(w) && CreationMay(w, c, a)
    ensures Links(CreationActs(w, c, a))
  {
    var x := w.creations[c];
    assert Sound(x);
    hide Links, SlotsOk;
    match a
    case DoDeliver(Created(_)) => DeliveredLink(w, c);
    case DoFinish =>
      if x.stage.unclaimed.Some? {
        FinishedLink(w, c);
      } else {
        QuietAct(w, c, a);
      }
    case _ => QuietAct(w, c, a);
  }

  lemma QuietAct(w: World, c: CreationId, a: ConnectionCreation.Action)
    requires Links(w) && CreationMay(w, c, a)
    requires !(a.DoDeliver? && a.outcome.Created?)
    requires a.DoFinish? ==> w.creations[c].stage.unclaimed.None?
    ensures Links(CreationActs(w, c, a))
  {
    var x := w.creations[c];
    assert Sound(x);
    assert w.worker.Running? && w.worker.pc == Creating(c) ==> !x.Released();
    hide Links, SlotsOk;
    QuietCreation(w, c, Do(x, a));
  }

  lemma BackgroundLinks(w: World, e: Event)
    requires Links(w) && Flows(w) && BackgroundEnabled(w, e)
    ensures Links(BackgroundDoes(w, e))
  {
    hide Links, Flows, CloserReturns, CreationActs, CreationMay, FlowMay, FlowActs;
    if e.CloserDone? {
      CloserLinks(w, e.flow);
    } else if e.FlowActed? {
      FlowActedLinks(w, e.flow, e.flowAction);
    } else if e.CreationActed? {
      CreationActedLinks(w, e.creation, e.creationAction);
    } else {
      IdleLinks(w, BackgroundDoes(w, e));
    }
  }

  lemma LoopLinks(w: World, e: Event)
    requires Links(w) && Flows(w) && Footing(w) && LoopEnabled(w, e)
    ensures Links(LoopDoes(w, e))
  {
    hide Links, Flows, Footing, WorkerHead, AttemptThrew, FinishAttempt;
    if e.HeadRan? {
      HeadEffect(w, e.now);
      PlainLinks(w, WorkerHead(w, e.now));
    } else if e.ExitRan? {
      PlainLinks(w, WorkerExit(w));
    } else if w.worker.pc.Returned? {
      FinishLinks(w, w.worker.request, w.worker.pc.result, e.now);
    } else {
      ThrewLinks(w, e.now);
    }
  }
}
