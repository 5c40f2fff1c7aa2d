/** What each segment of an attempt answers, in terms of the state it finds: which branch is taken
    under which condition, and what the session, the sets and the request look like after it. */
module AppAnswers {
  import opened Wrappers
  import opened Records
  import opened Protocol
  import opened ProtocolCore
  import opened ProtocolFlows
  import opened ProtocolLinks
  import opened ProtocolFrames
  import opened ProtocolRequests
  import ConnectionCreation

  // ---------------------------------------------------------------- closing a session

  /** A closed session's flow is stopped, cycles the endpoint after the close exactly if `cleans`,
      and closes the session's link after the task that was there before. A session whose own
      worker still runs keeps that one; otherwise a new flow, with a worker only if it cleans. */
  predicate HandsOver(w: World, w': World, d: DeviceId, cleans: bool) {
    && d in w.sessions && w'.sessions == w.sessions - {d}
    && d in w'.flowTasks && w'.flowTasks == w.flowTasks[d := w'.flowTasks[d]] && w'.flowTasks[d] < |w'.flows|
    && var s := w.sessions[d];
       var f := w'.flowTasks[d];
       var flow := w'.flows[f];
       && flow.stop && flow.link == s.link && (flow.cleanup <==> cleans)
       && (forall i :: 0 <= i < |w.flows| && i != f ==> i < |w'.flows| && w'.flows[i] == w.flows[i])
       && if s.flow.Some? && s.flow.value < |w.flows| && !w.flows[s.flow.value].done then
            && f == s.flow.value && |w'.flows| == |w.flows| && flow.worker == w.flows[f].worker
            && flow.authorized == w.flows[f].authorized && !flow.done && flow.closed == w.flows[f].closed
            && flow.predecessor == (if d in w.flowTasks && w.flowTasks[d] != f then Some(w.flowTasks[d]) else None)
          else
            && f == |w.flows| && |w'.flows| == |w.flows| + 1 && flow.device == d
            && flow.worker == (if cleans then AwaitingClose else NoWorker)
            && !flow.authorized && !flow.done && !flow.closed
            && flow.predecessor == (if d in w.flowTasks then Some(w.flowTasks[d]) else None)
  }

  /** The endpoint is cycled after closing an established session, except at the shutdown, in a
      recovery, and where the caller says otherwise. */
  predicate Cleans(w: World, d: DeviceId, skipAudioCleanup: bool) {
    d in w.sessions && w.sessions[d].phase.Connected? && !w.stopping && !w.bluetooth.inProgress && !skipAudioCleanup
  }

  lemma CloseHandsOver(w: World, d: DeviceId, generation: Option<nat>, skipAudioCleanup: bool)
    ensures
      var w' := CloseSession(w, d, generation, skipAudioCleanup);
      if d in w.sessions && (generation.Some? ==> w.sessions[d].generation == generation.value)
      then HandsOver(w, w', d, Cleans(w, d, skipAudioCleanup))
      else w' == w
  {
  }

  /** A user's disconnect cleans the endpoint of an established session. */
  lemma DisconnectHandsOver(w: World, d: DeviceId)
    ensures !w.stopping && d in w.sessions ==> HandsOver(w, Disconnect(w, d), d, Cleans(w, d, false))
  {
    CloseHandsOver(Withdrawn(w, d), d, None, false);
    hide CloseSession;
  }

  /** A remote close never touches the endpoint. */
  lemma ReportHandsOver(w: World, d: DeviceId, generation: nat, link: LinkId, readsClosed: bool)
    ensures RemoteClose(w, d, generation, link, readsClosed) ==>
              HandsOver(w, LinkClosed(w, d, generation, link, readsClosed), d, false)
  {
    CloseHandsOver(Muted(w, d), d, Some(generation), true);
    hide CloseSession;
  }

  // ---------------------------------------------------------------- up to the preparation

  /** A request that may connect directly goes on; any other is prepared: its device no longer
      counts as prepared, its counter goes up, and only the first preparation of a Forced request
      may interrupt. */
  predicate DecidesToPrepare(w: World, w': World, r: Request) {
    if r.strategy.Direct?
    then w'.worker == Running(r, AfterRecovery(NotRequired)) && w'.prepared == w.prepared
    else
      && w'.worker == Running(r.(preparationAttempts := r.preparationAttempts + 1),
                              EnteringRecovery(r.mode.Forced? && r.preparationAttempts == 0))
      && w'.prepared == w.prepared - {r.device}
  }

  lemma DecidesEither(w: World, r: Request)
    ensures DecidesToPrepare(w, BeginPreparation(w, r), r)
  {
  }

  predicate Unfinished(w: World, d: DeviceId) {
    exists c :: 0 <= c < |w.creations| && w.creations[c].device == d && !w.creations[c].Finished()
  }

  /** A request that is retired or whose device is connected is given up, one whose device's last
      creation still runs fails; any other gets its placeholder session, and waits for the
      device's flow if there is one. */
  predicate BeginsAs(w: World, w': World) {
    w.worker.Running? &&
    var r := w.worker.request;
    var d := r.device;
    if d == NO_DEVICE || w.stopping || Generation(w.generations, d) != r.generation || d in w.sessions then
      w' == At(w, r, Returned(Cancelled))
    else if Unfinished(w, d) then
      w' == At(w, r, Returned(DeviceUnavailable))
    else
      && w'.sessions == w.sessions[d := Session(r.generation, r.attemptId,
                                                 if r.strategy.Direct? then Phase.Starting else RecoveringBluetooth,
                                                 None, None)]
      && w'.slots == w.slots - {d}
      && if d in w.flowTasks then w'.worker == Running(r, WaitingOldFlow(w.flowTasks[d])) && w'.prepared == w.prepared
         else DecidesToPrepare(w, w', r)
  }

  lemma BusyMeansUnfinished(w: World, d: DeviceId)
    requires SlotsOk(w.slots, w.creations)
    ensures SlotBusy(w, d) <==> Unfinished(w, d)
  {
    if SlotBusy(w, d) {
      assert w.creations[w.slots[d]].device == d;
    }
  }

  lemma BeginAnswers(w: World)
    requires SlotsOk(w.slots, w.creations) && w.worker.Running? && w.worker.pc.Popped?
    ensures BeginsAs(w, AttemptBegins(w))
  {
    var r := w.worker.request;
    BusyMeansUnfinished(w, r.device);
    DecidesEither(Emplaced(w, r), r);
    BeginPreparationEffect(Emplaced(w, r), r);
    hide SlotsOk, SlotBusy, Unfinished, BeginPreparation, DecidesToPrepare;
    PreparedFrom(w, Emplaced(w, r), BeginPreparation(Emplaced(w, r), r), r);
  }

  lemma PreparedFrom(w: World, v: World, w': World, r: Request)
    requires DecidesToPrepare(v, w', r) && v.prepared == w.prepared
    ensures DecidesToPrepare(w, w', r)
  {
  }

  /** After the wait a lost attempt is given up, and any other drops the finished task. */
  predicate ResumesAs(w: World, w': World) {
    w.worker.Running? &&
    var r := w.worker.request;
    if !IsCurrent(w, r, None) || w.stopping then w' == At(w, r, Returned(Cancelled))
    else
      && w'.sessions == w.sessions && w'.flowTasks == w.flowTasks - {r.device}
      && DecidesToPrepare(w, w', r)
  }

  lemma ResumeAnswers(w: World)
    requires w.worker.Running? && w.worker.pc.WaitingOldFlow?
    ensures ResumesAs(w, OldFlowFinished(w))
  {
    var r := w.worker.request;
    var v := w.(flowTasks := w.flowTasks - {r.device});
    DecidesEither(v, r);
    BeginPreparationEffect(v, r);
    hide BeginPreparation, DecidesToPrepare, IsCurrent;
    PreparedFrom(w, v, BeginPreparation(v, r), r);
  }

  // ---------------------------------------------------------------- the recovery

  /** The request notes the answer, and is Direct from then on if it may go on. */
  predicate NotesAnswer(w: World, w': World, outcome: Recovery) {
    w.worker.Running? &&
    var r := w.worker.request;
    w'.worker == Running(r.(preparationResult := outcome,
                            strategy := if outcome.NotRequired? || outcome.Succeeded? then Direct else r.strategy),
                         AfterRecovery(outcome))
  }

  /** Some established session's link reads anything but Closed. */
  predicate Playing(w: World) {
    exists d :: d in w.sessions && w.sessions[d].phase.Connected? && w.sessions[d].link.Some?
      && w.sessions[d].link.value in w.live
  }

  /** The gate protects live playback from a request that may not interrupt it, which then counts
      as prepared enough; it fails once the application stops; otherwise the radio is taken. */
  predicate GatesAs(w: World, w': World) {
    w.worker.Running? && w.worker.pc.EnteringRecovery? && w'.bluetooth.needed &&
    if Playing(w) && !w.worker.pc.allow then NotesAnswer(w, w', NotRequired) && !w'.bluetooth.inProgress
    else if w.stopping then NotesAnswer(w, w', UnexpectedFailure) && !w'.bluetooth.inProgress
    else
      && w'.worker == Running(w.worker.request, FindingRadio(w.worker.pc.allow))
      && w'.bluetooth.inProgress && w'.bluetooth.device == w.worker.request.device
  }

  lemma EndNotes(w: World, v: World, outcome: Recovery)
    requires w.worker.Running? && v.bluetooth == w.bluetooth.(needed := true)
    ensures NotesAnswer(w, PreparationEnds(v, w.worker.request, outcome), outcome)
    ensures PreparationEnds(v, w.worker.request, outcome).bluetooth == v.bluetooth
  {
  }

  lemma GateAnswersAs(w: World)
    requires w.worker.Running? && w.worker.pc.EnteringRecovery? && !w.bluetooth.inProgress
    ensures GatesAs(w, RecoveryGate(w))
  {
    hide PreparationEnds, NotesAnswer;
    assert HasLivePlayback(w.sessions, w.live) == Playing(w);
    hide HasLivePlayback, Playing;
    var v := w.(bluetooth := w.bluetooth.(needed := true));
    EndNotes(w, v, NotRequired);
    EndNotes(w, v, UnexpectedFailure);
  }

  /** The sessions are revoked exactly for a request that may interrupt. */
  predicate RevokesAs(w: World, w': World, tasks: seq<FlowId>) {
    w.worker.Running? && w.worker.pc.FindingRadio?
    && w'.worker == Running(w.worker.request, AwaitingFlows(w.worker.pc.allow, tasks))
    && w'.sessions ==
         if w.worker.pc.allow
         then map d | d in w.sessions && !w.sessions[d].phase.Connected? :: w.sessions[d]
         else w.sessions
  }

  lemma RevokeAnswers(w: World, ids: seq<DeviceId>, tasks: seq<FlowId>)
    requires w.worker.Running? && w.worker.pc.FindingRadio? && Lists(ids, ConnectedIds(w.sessions))
    ensures RevokesAs(w, RadioFound(w, ids, tasks), tasks)
  {
    CloseAllEffect(w, ids);
    hide CloseAll;
    assert (set d | d in ids) == ConnectedIds(w.sessions);
  }

  /** A success leaves the device prepared and no longer deferred; anything else leaves both sets
      alone and the need for a recovery noted. */
  predicate LeavesAs(w: World, w': World) {
    w.worker.Running? && w.worker.pc.FinishingRecovery? &&
    var d := w.worker.request.device;
    var succeeded := w.worker.pc.outcome.Succeeded?;
    && NotesAnswer(w, w', w.worker.pc.outcome)
    && !w'.bluetooth.inProgress && (w'.bluetooth.needed <==> !succeeded)
    && w'.prepared == (if succeeded then w.prepared + {d} else w.prepared)
    && w'.deferred == (if succeeded then w.deferred - {d} else w.deferred)
    && w'.sessions == w.sessions && w'.queue == w.queue
  }

  lemma LeaveAnswers(w: World)
    requires w.worker.Running? && w.worker.pc.FinishingRecovery?
    ensures LeavesAs(w, RecoveryFinished(w))
  {
  }

  // ---------------------------------------------------------------- the connection

  /** The placeholder session goes, and the attempt returns this. */
  predicate ReturnsWith(w: World, w': World, result: AttemptResult) {
    w.worker.Running? &&
    var r := w.worker.request;
    && w'.worker == Running(r, Returned(result))
    && w'.sessions == (if r.device in w.sessions && w.sessions[r.device].generation == r.generation
                       then w.sessions - {r.device} else w.sessions)
    && w'.queue == w.queue && w'.bluetooth == w.bluetooth
  }

  lemma ReturnAnswers(w: World, result: AttemptResult)
    requires w.worker.Running?
    ensures ReturnsWith(w, CloseAndReturn(w, w.worker.request, result), result)
  {
    CloseEffect(w, w.worker.request.device, Some(w.worker.request.generation), false);
    hide CloseSession;
  }

  /** The device's slot gets a creation of its own, unless the deadline passed just before. */
  predicate CreatesAs(w: World, w': World, fault: Option<AttemptResult>) {
    w.worker.Running? &&
    var r := w.worker.request;
    && r.device in w.sessions
    && w'.sessions == w.sessions[r.device := w.sessions[r.device].(phase := Phase.Starting)]
    && if fault.Some? then
         w'.worker == Running(r, Settling(fault.value, None)) && w'.creations == w.creations && w'.slots == w.slots
       else
         && w'.worker == Running(r, Creating(|w.creations|))
         && |w'.creations| == |w.creations| + 1 && w'.creations[..|w.creations|] == w.creations
         && w'.creations[|w.creations|] == ConnectionCreation.New(r.device)
         && w'.slots == w.slots[r.device := |w.creations|]
  }

  lemma CreateAnswers(w: World, fault: Option<AttemptResult>)
    requires w.worker.Running? && w.worker.request.device in w.sessions
    ensures CreatesAs(w, BeginCreation(w, w.worker.request, fault), fault)
  {
  }

  /** What the recovery's answer means: a lost attempt and a cancelled recovery are Cancelled, any
      other failure is one of the recovery; a device without a snapshot, or whose radio was off
      and on again, is looked up first. */
  predicate ChecksAs(w: World, w': World, fault: Option<AttemptResult>) {
    w.worker.Running? && w.worker.pc.AfterRecovery? &&
    var r := w.worker.request;
    var outcome := w.worker.pc.outcome;
    if !IsCurrent(w, r, None) || w.stopping || outcome.RecoveryCancelled? then ReturnsWith(w, w', Cancelled)
    else if !outcome.NotRequired? && !outcome.Succeeded? then ReturnsWith(w, w', BluetoothRecoveryFailed)
    else if outcome.Succeeded? || !r.hasSnapshot then w' == At(w, r, LookingUp)
    else CreatesAs(w, w', fault)
  }

  lemma CheckAnswers(w: World, fault: Option<AttemptResult>)
    requires w.worker.Running? && w.worker.pc.AfterRecovery?
    ensures ChecksAs(w, AfterPreparation(w, fault), fault)
  {
    hide CloseAndReturn, BeginCreation, ReturnsWith, CreatesAs;
    ReturnAnswers(w, Cancelled);
    ReturnAnswers(w, BluetoothRecoveryFailed);
    if IsCurrent(w, w.worker.request, None) {
      CreateAnswers(w, fault);
    }
  }

  predicate LooksUpAs(w: World, w': World, fault: Option<AttemptResult>) {
    w.worker.Running? && w.worker.pc.LookingUp? &&
    if !IsCurrent(w, w.worker.request, None) || w.stopping then ReturnsWith(w, w', Cancelled)
    else CreatesAs(w, w', fault)
  }

  lemma LookUpAnswers(w: World, fault: Option<AttemptResult>)
    requires w.worker.Running? && w.worker.pc.LookingUp?
    ensures LooksUpAs(w, LookupEnds(w, fault), fault)
  {
    hide CloseAndReturn, BeginCreation, ReturnsWith, CreatesAs;
    ReturnAnswers(w, Cancelled);
    if IsCurrent(w, w.worker.request, None) {
      CreateAnswers(w, fault);
    }
  }

  /** Everything but the creation stays, and that one is given up. */
  predicate GivesBack(w: World, w': World, c: CreationId, pc: Pc)
    requires c < |w.creations| && w.worker.Running?
  {
    && w' == w.(worker := Running(w.worker.request, pc), creations := w'.creations)
    && w'.creations == w.creations[c := w.creations[c].(abandoned := true)]
  }

  /** The creation is claimed and holds nothing any more. */
  predicate TakesFrom(w: World, w': World, c: CreationId)
    requires c < |w.creations|
  {
    w'.creations == w.creations[c := w.creations[c].(claimed := true, connection := None)]
  }

  /** A creation that is ready: abandoned by a lost attempt, and otherwise its connection becomes
      the session's; without one the device is unavailable, and an error is reported as it is. */
  predicate ClaimsAs(w: World, w': World, fault: AttemptResult) {
    w.worker.Running? && w.worker.pc.Creating? && w.worker.pc.creation < |w.creations| &&
    var r := w.worker.request;
    var c := w.worker.pc.creation;
    var x := w.creations[c];
    if !IsCurrent(w, r, None) || w.stopping then GivesBack(w, w', c, Returned(Cancelled))
    else if x.abandoned || !x.error.NoError? then GivesBack(w, w', c, Settling(fault, None))
    else
      && TakesFrom(w, w', c)
      && if x.connection.None? then
           w'.worker == Running(r, Settling(DeviceUnavailable, None)) && w'.sessions == w.sessions
         else
           && w'.worker == Running(r, StartingLink(x.connection.value))
           && w'.sessions == w.sessions[r.device := w.sessions[r.device].(link := x.connection)]
  }

  lemma GiveBackAnswers(w: World, c: CreationId, pc: Pc)
    requires c < |w.creations| && w.worker.Running?
    ensures GivesBack(w, At(UpdateCreation(w, c, ConnectionCreation.Abandon(w.creations[c])), w.worker.request, pc), c,
                      pc)
  {
  }

  lemma TakeGives(x: ConnectionCreation.Creation)
    requires !x.abandoned && x.error.NoError?
    ensures ConnectionCreation.Take(x)
         == (x.(claimed := true, connection := None), ConnectionCreation.Taken(x.connection))
  {
  }

  lemma HandOverAnswers(w: World, c: CreationId, after: ConnectionCreation.Creation, l: LinkId)
    requires c < |w.creations| && w.worker.Running? && w.worker.request.device in w.sessions
    ensures
      var r := w.worker.request;
      var w' := HandOver(UpdateCreation(w, c, after), r, l);
      && w'.creations == w.creations[c := after] && w'.worker == Running(r, StartingLink(l))
      && w'.sessions == w.sessions[r.device := w.sessions[r.device].(link := Some(l))]
  {
  }

  lemma TakeAnswersAs(w: World, c: CreationId, fault: AttemptResult)
    requires c < |w.creations| && w.worker.Running? && w.worker.request.device in w.sessions
    requires !w.creations[c].abandoned && w.creations[c].error.NoError?
    ensures
      var r := w.worker.request;
      var x := w.creations[c];
      var w' := Claim(w, r, c, ConnectionCreation.Take(x).0, ConnectionCreation.Take(x).1, fault);
      && TakesFrom(w, w', c)
      && if x.connection.None? then
           w'.worker == Running(r, Settling(DeviceUnavailable, None)) && w'.sessions == w.sessions
         else
           && w'.worker == Running(r, StartingLink(x.connection.value))
           && w'.sessions == w.sessions[r.device := w.sessions[r.device].(link := x.connection)]
  {
    hide ConnectionCreation.Abandon, ConnectionCreation.Take, HandOver;
    var x := w.creations[c];
    TakeGives(x);
    if x.connection.Some? {
      HandOverAnswers(w, c, ConnectionCreation.Take(x).0, x.connection.value);
    }
  }

  lemma ClaimAnswers(w: World, fault: AttemptResult)
    requires w.worker.Running? && w.worker.pc.Creating? && w.worker.pc.creation < |w.creations|
    ensures ClaimsAs(w, CreationReady(w, fault), fault)
  {
    hide GivesBack, TakesFrom, ConnectionCreation.Abandon, HandOver, UpdateCreation;
    var c := w.worker.pc.creation;
    var x := w.creations[c];
    GiveBackAnswers(w, c, Returned(Cancelled));
    GiveBackAnswers(w, c, Settling(fault, None));
    if IsCurrent(w, w.worker.request, None) && !w.stopping && !x.abandoned && x.error.NoError? {
      TakeAnswersAs(w, c, fault);
    }
  }

  /** The attempt still owns its session and the link in it. */
  predicate Owns(w: World, l: LinkId) {
    w.worker.Running? && IsCurrent(w, w.worker.request, Some(l)) && !w.stopping
  }

  predicate StartsAs(w: World, w': World) {
    w.worker.Running? && w.worker.pc.StartingLink? &&
    var r := w.worker.request;
    Owns(w, w.worker.pc.link) ==>
      w' == w.(sessions := w.sessions[r.device := w.sessions[r.device].(phase := Phase.Opening)],
               worker := Running(r, OpeningLink(w.worker.pc.link)))
  }

  lemma StartAnswers(w: World)
    requires w.worker.Running? && w.worker.pc.StartingLink?
    ensures StartsAs(w, LinkStarted(w))
  {
    hide CloseAndReturn;
  }

  /** One answer for each open status. A connection that opened is waited for until it reads so. */
  predicate OpensAs(w: World, w': World, status: OpenStatus, isOpen: bool) {
    w.worker.Running? && w.worker.pc.OpeningLink? &&
    var r := w.worker.request;
    var l := w.worker.pc.link;
    Owns(w, l) ==>
      && w' == w.(sessions := w'.sessions, worker := w'.worker) && w'.worker.Running? && w'.worker.request == r
      && (w'.worker.pc == WaitingOpened(l) <==> status.OpenSucceeded? && !isOpen)
      && (w'.worker.pc == Settling(Success, Some(l)) <==> status.OpenSucceeded? && isOpen)
      && (w'.worker.pc == Settling(OpenTimedOut, Some(l)) <==> status.RequestTimedOut?)
      && (w'.worker.pc == Settling(DeniedBySystem, Some(l)) <==> status.RequestDenied?)
      && (w'.worker.pc == Settling(OpenFailed, Some(l)) <==> status.RequestFailed?)
      && w'.sessions == (if status.OpenSucceeded?
                         then w.sessions[r.device := w.sessions[r.device].(phase := WaitingForOpened)]
                         else w.sessions)
  }

  lemma OpenAnswers(w: World, status: OpenStatus, isOpen: bool)
    requires w.worker.Running? && w.worker.pc.OpeningLink?
    ensures OpensAs(w, OpenReturned(w, status, isOpen), status, isOpen)
  {
    hide CloseAndReturn;
  }

  predicate WaitsAs(w: World, w': World, isOpen: bool) {
    w.worker.Running? && w.worker.pc.WaitingOpened? &&
    var l := w.worker.pc.link;
    Owns(w, l) ==>
      && w' == w.(worker := w'.worker) && w'.worker.Running? && w'.worker.request == w.worker.request
      && (w'.worker.pc == Settling(Success, Some(l)) <==> isOpen)
      && (w'.worker.pc == Settling(ClosedUnexpectedly, Some(l)) <==> !isOpen)
  }

  lemma WaitAnswers(w: World, isOpen: bool)
    requires w.worker.Running? && w.worker.pc.WaitingOpened?
    ensures WaitsAs(w, OpenedWaited(w, isOpen), isOpen)
  {
    hide CloseAndReturn;
  }

  /** Explicit requests verify that audio arrives, and so do Automatic ones whose device had to be
      prepared first. */
  predicate Verifies(r: Request, flowStarts: bool) {
    flowStarts && (r.mode.Quick? || r.mode.Forced? || r.prepareBeforeConnect)
  }

  /** The session is established and the device remembered; a monitor watches its audio if that
      is to be verified; nothing is left to recover. */
  predicate Establishes(w: World, w': World, flowStarts: bool) {
    w.worker.Running? &&
    var r := w.worker.request;
    var d := r.device;
    var verify := Verifies(r, flowStarts);
    && d in w.sessions && w'.worker == Running(r, Returned(Success)) && !w'.bluetooth.needed
    && w'.sessions == w.sessions[d := w.sessions[d].(phase := Connected,
                                                     flow := if verify then Some(|w.flows|) else w.sessions[d].flow)]
    && w'.desired == (if d in w.desired then w.desired else w.desired + [d]) && w'.pending == w.pending - {d}
    && if !verify then w'.flows == w.flows && w'.flowTasks == w.flowTasks
       else
         && w'.flowTasks == w.flowTasks[d := |w.flows|]
         && w'.flows == w.flows + [Flow(d, true, Monitoring, false, false, false, false, None, None)]
  }

  lemma CommitAnswers(w: World, flowStarts: bool)
    requires w.worker.Running? && w.worker.request.device in w.sessions
    ensures Establishes(w, Commit(w, w.worker.request, flowStarts), flowStarts)
  {
    hide Committed, Recalled;
    var r := w.worker.request;
    EstablishedAnswers(w, r.device, Verifies(r, flowStarts));
    CommittedAnswers(Established(w, r.device, Verifies(r, flowStarts)), r);
    hide Established;
  }

  lemma CommittedAnswers(w: World, r: Request)
    ensures
      var w' := Committed(w, r);
      && w'.worker == Running(r, Returned(Success)) && !w'.bluetooth.needed && w'.sessions == w.sessions
      && w'.flows == w.flows && w'.flowTasks == w.flowTasks && w'.pending == w.pending - {r.device}
      && w'.desired == (if r.device in w.desired then w.desired else w.desired + [r.device])
  {
  }

  lemma EstablishedAnswers(w: World, d: DeviceId, verify: bool)
    requires d in w.sessions
    ensures
      var w' := Established(w, d, verify);
      && w'.desired == w.desired && w'.pending == w.pending
      && w'.sessions == w.sessions[d := w.sessions[d].(phase := Connected,
                                                       flow := if verify then Some(|w.flows|) else w.sessions[d].flow)]
      && (if !verify then w'.flows == w.flows && w'.flowTasks == w.flowTasks
          else w'.flowTasks == w.flowTasks[d := |w.flows|] && w'.flows == w.flows + [NewMonitor(d)])
  {
  }

  /** The attempt succeeds exactly if it had and its connection still reads Opened; one that had
      and does not any more was closed; anything else fails with the result it had. A failure is
      noted as a need for recovery. */
  predicate SettlesAs(w: World, w': World, stillOpened: bool, flowStarts: bool) {
    w.worker.Running? && w.worker.pc.Settling? &&
    var result := w.worker.pc.result;
    IsCurrent(w, w.worker.request, w.worker.pc.current) && !w.stopping ==>
      if result.Success? && stillOpened then Establishes(w, w', flowStarts)
      else
        var v := w'.(bluetooth := w.bluetooth);
        && w'.bluetooth == w.bluetooth.(needed := true)
        && ReturnsWith(w, v, if result.Success? then ClosedUnexpectedly else result)
  }

  lemma SettleAnswers(w: World, stillOpened: bool, flowStarts: bool)
    requires w.worker.Running? && w.worker.pc.Settling?
    ensures SettlesAs(w, Settle(w, stillOpened, flowStarts), stillOpened, flowStarts)
  {
    hide CloseAndReturn, Commit, Lost, Establishes;
    var result := if w.worker.pc.result.Success? then ClosedUnexpectedly else w.worker.pc.result;
    ReturnAnswers(w, result);
    if IsCurrent(w, w.worker.request, w.worker.pc.current) {
      CommitAnswers(w, flowStarts);
    }
  }

  // ---------------------------------------------------------------- rows

  /** When the row of a remembered device goes, the device waits to be reconnected, unless it was
      suppressed, is connected or is in line. */
  predicate LeavesRow(w: World, w': World, d: DeviceId) {
    var waits := && !w.stopping && !w.bluetooth.inProgress && d !in w.sessions && !Queued(w.queue, d)
                 && w.reconnectEnabled && d in w.desired && d !in w.suppressed;
    w' == w.(pending := if waits then w.pending + {d} else w.pending)
  }

  lemma RowAnswers(w: World, d: DeviceId)
    ensures LeavesRow(w, DeviceLeaves(w, d), d)
  {
    hide Queued;
  }
}
