/** The event queue of the audio monitor in DebugAudioMonitor.hpp. */
module MonitorQueue {
  // Its producers may be system callbacks; one thread drains it into the journal.

  const MAX_QUEUED: nat := 4096

  datatype Event = Event(id: nat, marker: bool, snapshot: bool)
  {
    predicate Requested() { marker || snapshot }
  }

  function Snapshots(events: seq<Event>): nat {
    if events == [] then 0 else Snapshots(events[..|events| - 1]) + (if events[|events| - 1].snapshot then 1 else 0)
  }

  /** Where the draining thread is in its loop, or on its way out after an exception. */
  datatype Worker = Waiting | Processing(batch: seq<Event>) | Reported | SawStop | Failing | Done

  /** The last six are the books: what entered the queue, what was dealt with and what an
      exception took along; how many pushes were turned away before the stop, how many of
      those were written down and how many an exception took along. */
  datatype Monitor = Monitor(
    queue: seq<Event>,
    dropped: nat,
    pendingSnapshots: nat,
    stopping: bool,
    fatal: bool,
    worker: Worker,
    accepted: seq<Event>,
    processed: seq<Event>,
    lost: seq<Event>,
    refused: nat,
    reported: nat,
    unreported: nat)

  function NewMonitor(): Monitor {
    Monitor([], 0, 0, false, false, Waiting, [], [], [], 0, 0, 0)
  }

  datatype Fate = Accepted | CountedAsDropped | Ignored

  /** Push: a callback never waits for the lock, and markers and snapshots never for room. */
  function FateOf(m: Monitor, e: Event, callback: bool, contended: bool): Fate {
    if callback && contended then CountedAsDropped
    else if m.stopping || m.worker.Done? then Ignored
    else if |m.queue| >= MAX_QUEUED && !e.marker && !e.snapshot then CountedAsDropped
    else Accepted
  }

  function Pushed(m: Monitor, e: Event, callback: bool, contended: bool): Monitor {
    match FateOf(m, e, callback, contended)
    case Accepted =>
      m.(queue := m.queue + [e], accepted := m.accepted + [e],
         pendingSnapshots := m.pendingSnapshots + (if e.snapshot then 1 else 0))
    case CountedAsDropped => m.(dropped := m.dropped + 1, refused := m.refused + 1)
    case Ignored => m
  }

  /** Throw is an exception anywhere in the thread's loop; with `counting`, one between taking
      the drop counter and writing it down. Exit is the scope exit that marks the monitor
      finished, some time after the exception. */
  datatype Step =
    | Push(e: Event, callback: bool, contended: bool)
    | Stop
    | Swap
    | Process
    | Report
    | ReadStop
    | CheckEmpty
    | Throw(counting: bool)
    | Exit

  predicate Enabled(m: Monitor, s: Step) {
    match s
    case Push(_, _, _) => true
    case Stop => true
    case Swap => m.worker.Waiting?
    case Process => m.worker.Processing? && m.worker.batch != []
    case Report => m.worker.Processing? && m.worker.batch == []
    case ReadStop => m.worker.Reported?
    case CheckEmpty => m.worker.SawStop?
    case Throw(counting) =>
      !m.worker.Failing? && !m.worker.Done? && (counting ==> m.worker.Processing? && m.worker.batch == [])
    case Exit => m.worker.Failing?
  }

  function Next(m: Monitor, s: Step): Monitor
    requires Enabled(m, s)
  {
    match s
    case Push(e, callback, contended) => Pushed(m, e, callback, contended)
    case Stop => m.(stopping := true)
    case Swap => m.(queue := [], worker := Processing(m.queue))
    case Process =>
      var e := m.worker.batch[0];
      m.(processed := m.processed + [e], worker := Processing(m.worker.batch[1..]),
         pendingSnapshots :=
           if e.snapshot && m.pendingSnapshots > 0 then m.pendingSnapshots - 1 else m.pendingSnapshots)
    case Report => m.(dropped := 0, reported := m.reported + m.dropped, worker := Reported)
    case ReadStop => m.(worker := if m.stopping then SawStop else Waiting)
    case CheckEmpty => m.(worker := if m.queue == [] then Done else Waiting)
    case Throw(counting) =>
      var m := m.(fatal := true, worker := Failing, lost := m.lost + Batch(m));
      if counting then m.(dropped := 0, unreported := m.unreported + m.dropped) else m
    case Exit => m.(worker := Done)
  }

  function Batch(m: Monitor): seq<Event> {
    if m.worker.Processing? then m.worker.batch else []
  }

  predicate Inv(m: Monitor) {
    && m.accepted == m.processed + m.lost + Batch(m) + m.queue
    && m.pendingSnapshots == Snapshots(m.lost) + Snapshots(Batch(m)) + Snapshots(m.queue)
    && m.refused == m.reported + m.unreported + m.dropped
    && (m.worker.SawStop? ==> m.stopping)
    && (m.worker.Failing? ==> m.fatal)
    && (m.fatal ==> m.worker.Failing? || m.worker.Done?)
    && (!m.fatal ==> m.lost == [] && m.unreported == 0 && (m.worker.Done? ==> m.stopping && m.queue == []))
  }

  lemma {:induction false} SnapshotsOf(a: seq<Event>, b: seq<Event>)
    ensures Snapshots(a + b) == Snapshots(a) + Snapshots(b)
    decreases |b|
  {
    if b == [] {
      assert a + b == a;
    } else {
      SnapshotsOf(a, b[..|b| - 1]);
      assert (a + b)[..|a + b| - 1] == a + b[..|b| - 1];
    }
  }

  lemma PushKeeps(m: Monitor, e: Event, callback: bool, contended: bool)
    requires Inv(m)
    ensures Inv(Pushed(m, e, callback, contended))
  {
    OneSnapshot(e);
    SnapshotsOf(m.queue, [e]);
    hide Snapshots;
  }

  lemma OneSnapshot(e: Event)
    ensures Snapshots([e]) == (if e.snapshot then 1 else 0) && Snapshots([]) == 0
  {
    assert [e][..0] == [];
  }

  lemma ProcessKeeps(m: Monitor)
    requires Inv(m) && Enabled(m, Process)
    ensures Inv(Next(m, Process))
  {
    var e := m.worker.batch[0];
    OneSnapshot(e);
    SnapshotsOf([e], m.worker.batch[1..]);
    assert m.worker.batch == [e] + m.worker.batch[1..];
    hide Snapshots;
    assert m.processed + [] + m.worker.batch == m.processed + [e] + [] + m.worker.batch[1..];
  }

  lemma ThrowKeeps(m: Monitor, counting: bool)
    requires Inv(m) && Enabled(m, Throw(counting))
    ensures Inv(Next(m, Throw(counting)))
  {
    var batch := Batch(m);
    assert m.lost + batch == batch;
    Regrouped(m.processed, batch, m.queue);
    OneSnapshot(Event(0, false, false));
    hide Snapshots, Batch;
    if counting {
    } else {
    }
  }

  lemma Regrouped(processed: seq<Event>, batch: seq<Event>, queue: seq<Event>)
    ensures processed + [] + batch + queue == processed + batch + [] + queue
  {
  }

  lemma StepKeeps(m: Monitor, s: Step)
    requires Inv(m) && Enabled(m, s)
    ensures Inv(Next(m, s))
  {
    OneSnapshot(Event(0, false, false));
    if s.Push? {
      PushKeeps(m, s.e, s.callback, s.contended);
      hide Pushed, Snapshots;
    } else if s.Process? {
      ProcessKeeps(m);
      hide Next;
    } else if s.Throw? {
      ThrowKeeps(m, s.counting);
      hide Next;
    } else {
      hide Snapshots;
    }
  }

  predicate IsRun(ms: seq<Monitor>, steps: seq<Step>) {
    && |ms| == |steps| + 1 && ms[0] == NewMonitor()
    && forall i :: 0 <= i < |steps| ==> Enabled(ms[i], steps[i]) && ms[i + 1] == Next(ms[i], steps[i])
  }

  lemma StepAt(ms: seq<Monitor>, steps: seq<Step>, i: nat)
    requires IsRun(ms, steps) && i + 1 < |ms|
    ensures i < |steps| && Enabled(ms[i], steps[i]) && ms[i + 1] == Next(ms[i], steps[i])
  {
  }

  lemma StartsNew(ms: seq<Monitor>, steps: seq<Step>)
    requires IsRun(ms, steps)
    ensures |ms| == |steps| + 1 && ms[0] == NewMonitor()
  {
    hide Enabled, Next, NewMonitor;
  }

  lemma NewMonitorIsSound()
    ensures Inv(NewMonitor())
  {
    OneSnapshot(Event(0, false, false));
    hide Snapshots;
  }

  lemma {:induction false} RunKeeps(ms: seq<Monitor>, steps: seq<Step>, i: nat)
    requires IsRun(ms, steps) && i < |ms|
    ensures Inv(ms[i])
  {
    hide *;
    StartsNew(ms, steps);
    if i == 0 {
      NewMonitorIsSound();
    } else {
      StepAt(ms, steps, i - 1);
      RunKeeps(ms, steps, i - 1);
      StepKeeps(ms[i - 1], steps[i - 1]);
    }
  }

  predicate ThrowBefore(steps: seq<Step>, i: nat)
    requires i <= |steps|
  {
    exists j :: 0 <= j < i && steps[j].Throw?
  }

  predicate Accepts(m: Monitor, s: Step) {
    s.Push? && FateOf(m, s.e, s.callback, s.contended).Accepted?
  }

  /** Step k takes an accepted event away for good: an exception with events in the batch or in
      the queue, or a push accepted after one. */
  predicate Loses(ms: seq<Monitor>, steps: seq<Step>, k: nat)
    requires k < |steps| < |ms|
  {
    || (steps[k].Throw? && Batch(ms[k]) + ms[k].queue != [])
    || (Accepts(ms[k], steps[k]) && ThrowBefore(steps, k))
  }

  predicate Lossy(m: Monitor) {
    m.fatal && m.lost + m.queue != []
  }

  /** What one step adds to the account of the losses. */
  lemma LossStep(m: Monitor, s: Step)
    requires Inv(m) && Enabled(m, s)
    ensures Next(m, s).fatal <==> m.fatal || s.Throw?
    ensures Lossy(Next(m, s)) <==> Lossy(m) || (s.Throw? && Batch(m) + m.queue != []) || (m.fatal && Accepts(m, s))
  {
    hide Snapshots;
    if s.Push? {
    } else if s.Throw? {
      assert m.lost + Batch(m) == Batch(m);
    } else {
    }
  }

  lemma {:induction false} LossesTell(ms: seq<Monitor>, steps: seq<Step>, i: nat)
    requires IsRun(ms, steps) && i < |ms|
    ensures i <= |steps| && (ms[i].fatal <==> ThrowBefore(steps, i))
    ensures Lossy(ms[i]) <==> exists k :: 0 <= k < i && Loses(ms, steps, k)
  {
    hide *;
    StartsNew(ms, steps);
    if i == 0 {
      NewLosesNothing(steps);
    } else {
      StepAt(ms, steps, i - 1);
      RunKeeps(ms, steps, i - 1);
      LossesTell(ms, steps, i - 1);
      LossStep(ms[i - 1], steps[i - 1]);
      ThrowSplit(steps, i);
      LossSplit(ms, steps, i);
    }
  }

  lemma NewLosesNothing(steps: seq<Step>)
    ensures !NewMonitor().fatal && !Lossy(NewMonitor()) && !ThrowBefore(steps, 0)
  {
  }

  lemma ThrowSplit(steps: seq<Step>, i: nat)
    requires 0 < i <= |steps|
    ensures ThrowBefore(steps, i) <==> ThrowBefore(steps, i - 1) || steps[i - 1].Throw?
  {
  }

  lemma LossSplit(ms: seq<Monitor>, steps: seq<Step>, i: nat)
    requires 0 < i <= |steps| < |ms|
    ensures (exists k :: 0 <= k < i && Loses(ms, steps, k))
            <==> || (exists k :: 0 <= k < i - 1 && Loses(ms, steps, k))
                 || (steps[i - 1].Throw? && Batch(ms[i - 1]) + ms[i - 1].queue != [])
                 || (Accepts(ms[i - 1], steps[i - 1]) && ThrowBefore(steps, i - 1))
  {
    assert Loses(ms, steps, i - 1) <==>
           || (steps[i - 1].Throw? && Batch(ms[i - 1]) + ms[i - 1].queue != [])
           || (Accepts(ms[i - 1], steps[i - 1]) && ThrowBefore(steps, i - 1));
    hide Loses, Accepts, ThrowBefore, Batch;
  }

  /** In every interleaving events are processed in the order they were accepted, the snapshot
      counter is exact, and every counted drop is reported, still to report or gone with an
      exception. */
  lemma EventsAreConserved(ms: seq<Monitor>, steps: seq<Step>, i: nat)
    requires IsRun(ms, steps) && i < |ms|
    ensures ms[i].accepted == ms[i].processed + ms[i].lost + Batch(ms[i]) + ms[i].queue
    ensures ms[i].pendingSnapshots == Snapshots(ms[i].lost) + Snapshots(Batch(ms[i])) + Snapshots(ms[i].queue)
    ensures ms[i].refused == ms[i].reported + ms[i].unreported + ms[i].dropped
    ensures !ms[i].fatal ==> ms[i].lost == [] && ms[i].unreported == 0
  {
    RunKeeps(ms, steps, i);
    hide IsRun, Snapshots;
  }

  /** Once the thread is done, everything accepted was processed exactly when no exception came
      with an event in the batch or in the queue and no push was accepted after one; and then
      no snapshot is still counted as pending. */
  lemma NothingAcceptedIsLost(ms: seq<Monitor>, steps: seq<Step>, i: nat)
    requires IsRun(ms, steps) && i < |ms| && ms[i].worker.Done?
    ensures i <= |steps|
    ensures ms[i].processed == ms[i].accepted <==> !exists k :: 0 <= k < i && Loses(ms, steps, k)
    ensures ms[i].processed == ms[i].accepted ==> ms[i].pendingSnapshots == 0
  {
    RunKeeps(ms, steps, i);
    LossesTell(ms, steps, i);
    DoneAccount(ms[i]);
    hide IsRun, Inv, Lossy, Loses;
  }

  lemma DoneAccount(m: Monitor)
    requires Inv(m) && m.worker.Done?
    ensures m.processed == m.accepted <==> !Lossy(m)
    ensures m.processed == m.accepted ==> m.pendingSnapshots == 0
  {
    OneSnapshot(Event(0, false, false));
    hide Snapshots;
    assert m.accepted == m.processed + (m.lost + m.queue);
    assert |m.lost + m.queue| == |m.lost| + |m.queue|;
  }

  /** The loss is real: an exception that comes once the thread has swapped the queue out takes
      an accepted event along. */
  lemma ExceptionLosesAcceptedEvents(e: Event) returns (ms: seq<Monitor>, steps: seq<Step>)
    ensures steps == [Push(e, false, false), Swap, Throw(false), Exit] && IsRun(ms, steps)
    ensures ms[4].worker.Done? && ms[4].accepted == [e] && ms[4].processed == []
  {
    var m0 := NewMonitor();
    var m1 := Pushed(m0, e, false, false);
    var m2 := m1.(queue := [], worker := Processing([e]));
    var m3 := m2.(fatal := true, worker := Failing, lost := [e]);
    ms, steps := [m0, m1, m2, m3, m3.(worker := Done)], [Push(e, false, false), Swap, Throw(false), Exit];
    assert [] + [e] == [e];
    forall i | 0 <= i < |steps| ensures Enabled(ms[i], steps[i]) && ms[i + 1] == Next(ms[i], steps[i]) {
      assert i == 0 || i == 1 || i == 2 || i == 3;
    }
  }

  /** A requested event that does not come from a callback is refused only by a stopped
      monitor, however long the queue; any other event never makes it longer than 4096. */
  lemma RequestsAreNeverDisplaced(m: Monitor, e: Event, callback: bool, contended: bool)
    ensures e.Requested() && !callback ==>
              (FateOf(m, e, callback, contended).Accepted? <==> !m.stopping && !m.worker.Done?)
    ensures !e.Requested() && FateOf(m, e, callback, contended).Accepted? ==>
              |Pushed(m, e, callback, contended).queue| <= MAX_QUEUED
    ensures FateOf(m, e, callback, contended).Ignored? ==> m.stopping || m.worker.Done?
  {
  }

  class EventQueue {
    var queue: seq<Event>
    var dropped: nat
    var pendingSnapshots: nat
    var stopping: bool
    var fatal: bool
    var worker: Worker
    ghost var accepted: seq<Event>
    ghost var processed: seq<Event>
    ghost var lost: seq<Event>
    ghost var refused: nat
    ghost var reported: nat
    ghost var unreported: nat

    constructor ()
      ensures View() == NewMonitor()
    {
      queue, dropped, pendingSnapshots, stopping, fatal := [], 0, 0, false, false;
      worker, accepted, processed, lost, refused, reported, unreported := Waiting, [], [], [], 0, 0, 0;
    }

    ghost function View(): Monitor
      reads this
    {
      Monitor(queue, dropped, pendingSnapshots, stopping, fatal, worker, accepted, processed, lost, refused, reported,
              unreported)
    }

    /** `locked` says whether a callback's try_lock succeeded. */
    method Push(event: Event, callback: bool, locked: bool)
      modifies `queue, `dropped, `pendingSnapshots, `accepted, `refused
      ensures View() == Pushed(old(View()), event, callback, !locked)
      ensures
        var misses := callback && !locked;
        var over := old(stopping) || old(worker).Done?;
        var full := |old(queue)| >= 4096 && !event.marker && !event.snapshot;
        var taken := !misses && !over && !full;
        && queue == (if taken then old(queue) + [event] else old(queue))
        && dropped == (if misses || (!over && full) then old(dropped) + 1 else old(dropped))
        && pendingSnapshots == (if taken && event.snapshot then old(pendingSnapshots) + 1 else old(pendingSnapshots))
    {
      if callback && !locked {
        dropped, refused := dropped + 1, refused + 1;
        return;
      }
      if stopping || worker.Done? {
        return;
      }
      if |queue| >= MAX_QUEUED && !event.marker && !event.snapshot {
        dropped, refused := dropped + 1, refused + 1;
        return;
      }
      queue, accepted := queue + [event], accepted + [event];
      if event.snapshot {
        pendingSnapshots := pendingSnapshots + 1;
      }
    }

    /** events.swap(state->queue). */
    method TakeAll() returns (events: seq<Event>)
      requires worker.Waiting?
      modifies `queue, `worker
      ensures View() == Next(old(View()), Swap) && worker == Processing(events)
    {
      events := queue;
      queue := [];
      worker := Processing(events);
    }

    /** dropped.exchange(0). */
    method TakeDropped() returns (count: nat)
      requires worker == Processing([])
      modifies `dropped, `reported, `worker
      ensures View() == Next(old(View()), Report) && count == old(dropped)
    {
      count := dropped;
      dropped, reported, worker := 0, reported + dropped, Reported;
    }
  }
}
