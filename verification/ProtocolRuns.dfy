/** Whole runs of the protocol, and what holds in every state they reach. */
module ProtocolRuns {
  import opened Records
  import opened Protocol
  import opened ProtocolCore
  import opened ProtocolFlows
  import opened ProtocolLinks
  import opened ProtocolSteps

  /** One step of the protocol. */
  predicate Step(w: World, e: Event, w': World) {
    Enabled(w, e) && w' == Apply(w, e)
  }

  /** A run: a started application and any interleaving of steps after it. */
  predicate IsRun(ws: seq<World>, es: seq<Event>) {
    && |ws| == |es| + 1
    && Initial(ws[0])
    && forall i :: 0 <= i < |es| ==> Step(ws[i], es[i], ws[i + 1])
  }

  lemma RunLength(ws: seq<World>, es: seq<Event>)
    requires IsRun(ws, es)
    ensures |ws| == |es| + 1 && Initial(ws[0])
  {
    hide Initial, Step;
  }

  lemma StepAt(ws: seq<World>, es: seq<Event>, i: nat)
    requires IsRun(ws, es) && i < |es|
    ensures i + 1 < |ws| && Enabled(ws[i], es[i])
    ensures ws[i + 1] == Apply(ws[i], es[i])
  {
    assert Step(ws[i], es[i], ws[i + 1]);
  }

  /** The three joint invariants. */
  predicate Safe(w: World) { Core(w) && Flows(w) && Links(w) }

  /** Every step keeps them. */
  lemma StepIsSafe(w: World, e: Event)
    requires Safe(w) && Enabled(w, e)
    ensures Safe(Apply(w, e))
  {
    hide Core, Flows, Links, Enabled, Apply;
    CoreStep(w, e);
    FlowsStep(w, e);
    LinksStep(w, e);
  }

  lemma InitiallySafe(w: World)
    requires Initial(w)
    ensures Safe(w)
  {
    LinksInitially(w);
    hide Core, Flows, Links, Initial;
  }

  /** They hold in every reachable state. */
  lemma {:induction false} EveryStateIsSafe(ws: seq<World>, es: seq<Event>, i: nat)
    requires IsRun(ws, es) && i < |ws|
    ensures Core(ws[i]) && Flows(ws[i]) && Links(ws[i])
  {
    hide *;
    RunLength(ws, es);
    if i == 0 {
      InitiallySafe(ws[0]);
      SafeParts(ws[0]);
    } else {
      EveryStateIsSafe(ws, es, i - 1);
      StepAt(ws, es, i - 1);
      CoreStep(ws[i - 1], es[i - 1]);
      FlowsStep(ws[i - 1], es[i - 1]);
      LinksStep(ws[i - 1], es[i - 1]);
    }
  }

  lemma SafeParts(w: World)
    requires Safe(w)
    ensures Core(w) && Flows(w) && Links(w)
  {
  }

  // ---------------------------------------------------------------- what that means

  /** One queued request per device, apart from the sessions; everything queued or connected
      carries its device's current generation; a waiting queue has a worker. */
  lemma QueueAndSessionsAgree(ws: seq<World>, es: seq<Event>, i: nat)
    requires IsRun(ws, es) && i < |ws|
    ensures
      var w := ws[i];
      && (forall a, b :: 0 <= a < b < |w.queue| ==> w.queue[a].device != w.queue[b].device)
      && (forall a :: 0 <= a < |w.queue| ==> w.queue[a].device !in w.sessions)
      && (forall a :: 0 <= a < |w.queue| ==> w.queue[a].generation == Generation(w.generations, w.queue[a].device))
      && (forall d :: d in w.sessions ==> w.sessions[d].generation == Generation(w.generations, d))
      && (w.queue != [] ==> w.workerRunning && !w.worker.Idle?)
      && (w.stopping ==> w.queue == [] && w.sessions == map[])
      && (forall d :: d in w.pending ==> d in w.desired)
  {
    hide *;
    EveryStateIsSafe(ws, es, i);
    CoreAgrees(ws[i]);
  }

  lemma CoreAgrees(w: World)
    requires Core(w)
    ensures
      && (forall a, b :: 0 <= a < b < |w.queue| ==> w.queue[a].device != w.queue[b].device)
      && (forall a :: 0 <= a < |w.queue| ==> w.queue[a].device !in w.sessions)
      && (forall a :: 0 <= a < |w.queue| ==> w.queue[a].generation == Generation(w.generations, w.queue[a].device))
      && (forall d :: d in w.sessions ==> w.sessions[d].generation == Generation(w.generations, d))
      && (w.queue != [] ==> w.workerRunning && !w.worker.Idle?)
      && (w.stopping ==> w.queue == [] && w.sessions == map[])
      && (forall d :: d in w.pending ==> d in w.desired)
  {
    hide WorkerOk, RadioOk;
    forall a | 0 <= a < |w.queue|
      ensures w.queue[a].device !in w.sessions && w.queue[a].generation == Generation(w.generations, w.queue[a].device)
    {
      assert QueuedOk(w.queue[a], w.generations, w.sessions, w.lastAttempt);
    }
    forall d | d in w.sessions ensures w.sessions[d].generation == Generation(w.generations, d) {
      assert SessionOk(d, w.sessions[d], w.generations, w.worker);
    }
  }

  /** At any time a device has at most one link object that is not closed, whoever holds it. */
  lemma OneOpenLink(ws: seq<World>, es: seq<Event>, i: nat, d: DeviceId, l: LinkId, m: LinkId)
    requires IsRun(ws, es) && i < |ws| && OpenLink(ws[i].links, l, d) && OpenLink(ws[i].links, m, d)
    ensures l == m
  {
    hide IsRun, Core, Flows, Links, OpenLink;
    EveryStateIsSafe(ws, es, i);
    OneOpenLinkPerDevice(ws[i], d, l, m);
  }

  /** Two creations for one device never overlap. */
  lemma CreationsNeverOverlap(ws: seq<World>, es: seq<Event>, i: nat, c: CreationId, k: CreationId)
    requires IsRun(ws, es) && i < |ws| && c < |ws[i].creations| && k < |ws[i].creations|
    requires !ws[i].creations[c].Finished() && !ws[i].creations[k].Finished()
    requires ws[i].creations[c].device == ws[i].creations[k].device
    ensures c == k
  {
    hide IsRun, Core, Flows, OwnersOk, HoldingsOk, AllHeld, AttemptSlotOk;
    EveryStateIsSafe(ws, es, i);
  }

  /** An endpoint is cycled only by a worker that was told to: as a repair for a session that asked
      for verification, or as the cleanup of a connection that is closed by then. */
  lemma CyclesAreAllowed(ws: seq<World>, es: seq<Event>, i: nat, f: FlowId)
    requires IsRun(ws, es) && i < |ws| && f < |ws[i].flows| && ws[i].flows[f].Cycling()
    ensures
      var flow := ws[i].flows[f];
      if flow.worker.RepairCycle? then flow.authorized else flow.closed && flow.cleanup && flow.stop
  {
    hide IsRun, Core, Links, SessionFlowsOk, RecoveryFlowsOk;
    EveryStateIsSafe(ws, es, i);
    assert FlowOk(ws[i].flows, ws[i].flows[f], f);
  }

  /** While the radio is off and on again, no endpoint cycle runs and none can begin. */
  lemma NoCycleInTransactions(ws: seq<World>, es: seq<Event>, i: nat)
    requires IsRun(ws, es) && i < |ws| && ws[i].worker.Running? && ws[i].worker.pc.InTransaction?
    ensures forall f :: 0 <= f < |ws[i].flows| ==> !ws[i].flows[f].Cycling() && !ws[i].flows[f].MayCycle()
  {
    hide IsRun, Core, Flows, Links;
    EveryStateIsSafe(ws, es, i);
    NoCycleDuringTransaction(ws[i]);
  }
}
