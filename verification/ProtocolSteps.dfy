/** What every step of the protocol keeps. */
module ProtocolSteps {
  import opened Records
  import opened Protocol
  import opened ProtocolCore
  import opened ProtocolFlows
  import opened ProtocolLinks
  import opened ProtocolFrames

  // ---------------------------------------------------------------- the joint invariants

  /** Every step keeps the joint invariant. */
  lemma CoreStep(w: World, e: Event)
    requires Core(w) && Enabled(w, e)
    ensures Core(Apply(w, e))
  {
    hide Core, UserEnabled, UserDoes, LoopEnabled, LoopDoes, OpeningEnabled, OpeningDoes, RecoveryEnabled,
      RecoveryDoes, LinkEnabled, LinkDoes, BackgroundEnabled, BackgroundDoes;
    if UserEnabled(w, e) {
      UserCore(w, e);
    } else if LoopEnabled(w, e) {
      LoopCore(w, e);
    } else if OpeningEnabled(w, e) {
      OpeningCore(w, e);
    } else if RecoveryEnabled(w, e) {
      RecoveryCore(w, e);
    } else if LinkEnabled(w, e) {
      LinkCore(w, e);
    } else {
      BackgroundEffect(w, e);
      IdleCore(w, BackgroundDoes(w, e));
    }
  }

  /** Every step keeps the flow invariant. */
  lemma FlowsStep(w: World, e: Event)
    requires Core(w) && Flows(w) && Enabled(w, e)
    ensures Flows(Apply(w, e))
  {
    hide Flows, Core, Footing, UserEnabled, UserDoes, LoopEnabled, LoopDoes, OpeningEnabled, OpeningDoes,
      RecoveryEnabled, RecoveryDoes, LinkEnabled, LinkDoes, BackgroundEnabled, BackgroundDoes;
    CoreIsFooting(w);
    if UserEnabled(w, e) {
      UserFlows(w, e);
    } else if LoopEnabled(w, e) {
      LoopFlows(w, e);
    } else if OpeningEnabled(w, e) {
      OpeningFlows(w, e);
    } else if RecoveryEnabled(w, e) {
      RecoveryFlows(w, e);
    } else if LinkEnabled(w, e) {
      LinkFlows(w, e);
    } else {
      BackgroundFlows(w, e);
    }
  }

  /** Every step keeps the link invariant. */
  lemma LinksStep(w: World, e: Event)
    requires Core(w) && Flows(w) && Links(w) && Enabled(w, e)
    ensures Links(Apply(w, e))
  {
    hide Links, Flows, Core, Footing, Unlinked, UserEnabled, UserDoes, LoopEnabled, LoopDoes, OpeningEnabled,
      OpeningDoes, RecoveryEnabled, RecoveryDoes, LinkEnabled, LinkDoes, BackgroundEnabled, BackgroundDoes;
    CoreIsFooting(w);
    CoreUnlinked(w);
    if UserEnabled(w, e) {
      UserLinks(w, e);
    } else if LoopEnabled(w, e) {
      LoopLinks(w, e);
    } else if OpeningEnabled(w, e) {
      OpeningLinks(w, e);
    } else if RecoveryEnabled(w, e) {
      RecoveryLinks(w, e);
    } else if LinkEnabled(w, e) {
      LinkStepLinks(w, e);
    } else {
      BackgroundLinks(w, e);
    }
  }

  /** At most one un-closed link object per device. */
  lemma OneOpenLinkPerDevice(w: World, d: DeviceId, l: LinkId, m: LinkId)
    requires Links(w) && OpenLink(w.links, l, d) && OpenLink(w.links, m, d)
    ensures l == m
  {
    assert Held(d, l, w.sessions, w.flows, w.slots, w.creations);
    assert Held(d, m, w.sessions, w.flows, w.slots, w.creations);
    HolderDecides(w, d, l, m);
    HolderDecides(w, d, m, l);
  }

  // ---------------------------------------------------------------- one segment of an attempt

  /** Every segment of an attempt stays within its frame. */
  lemma AttemptStaysInFrame(w: World, e: Event)
    requires Core(w) && Enabled(w, e) && AttemptEvent(e)
    ensures w.worker.Running? && AttemptFrame(w, Apply(w, e))
    ensures !Preparing(e) ==> CalmFrame(w, Apply(w, e))
  {
    hide Core, Stamped, AttemptFrame, CalmFrame, Apply, Enabled, Preparing, OpeningEnabled, OpeningDoes,
      RecoveryEnabled, RecoveryDoes, LinkEnabled, LinkDoes, OpeningEvent, RecoveryEvent, LinkEvent;
    StepByGroup(w, e);
    NotDone(w, e);
    CoreStamps(w);
    if OpeningEvent(e) {
      OpeningFrame(w, e);
    } else if RecoveryEvent(e) {
      RecoveryFrame(w, e);
    } else {
      LinkFrame(w, e);
      CalmIsAttempt(w, LinkDoes(w, e));
    }
  }

  /** No continuation of an attempt whose generation was retired touches any session or
      queues anything; the only way on is back to the loop. */
  lemma StaleContinuationTouchesNothing(w: World, e: Event)
    requires Core(w) && Enabled(w, e) && (AttemptEvent(e) || e.AttemptDone?)
    requires w.worker.Running? && Stale(w, w.worker.request)
    ensures Apply(w, e).sessions == w.sessions && Apply(w, e).queue == w.queue && Apply(w, e).desired == w.desired
  {
    hide Core, Stamped, Apply, Enabled, LoopDoes, CalmFrame;
    if AttemptEvent(e) {
      AttemptStaysInFrame(w, e);
    } else {
      StepByGroup(w, e);
      CoreStamps(w);
      StaleDone(w, e);
    }
  }
}
