/** BackgroundLog.hpp: the bounded queue between log producers and the one writing thread. */
module LogQueue {
  // Producers, Stop and the worker interleave arbitrarily; each locked section is one step.

  const MAX_ENTRIES: nat := 4096
  const MAX_BYTES: nat := 8 * 1024 * 1024
  const WCHAR_SIZE: nat := 2

  type Entry = seq<nat>

  function Size(e: Entry): nat { |e| * WCHAR_SIZE }

  function TotalSize(entries: seq<Entry>): nat {
    if entries == [] then 0 else TotalSize(entries[..|entries| - 1]) + Size(entries[|entries| - 1])
  }

  /** What the worker writes: an entry, or a line reporting how many were dropped. */
  datatype Item = Line(entry: Entry) | DropReport(count: nat)

  function Lines(items: seq<Item>): seq<Entry> {
    if items == [] then []
    else Lines(items[..|items| - 1]) + (if items[|items| - 1].Line? then [items[|items| - 1].entry] else [])
  }

  function Reported(items: seq<Item>): nat {
    if items == [] then 0
    else Reported(items[..|items| - 1]) + (if items[|items| - 1].DropReport? then items[|items| - 1].count else 0)
  }

  /** Where the worker is: waiting, writing a batch outside the lock, closing, or done. */
  datatype Worker = Waiting | Writing(batch: seq<Item>, last: bool) | Closing | Done

  /** The queue and the books kept about it: every accepted entry, everything written, and
      the batch a throwing write lost. */
  datatype Log = Log(
    pending: seq<Entry>,
    bytes: nat,
    dropped: nat,
    totalDropped: nat,
    errors: nat,
    stopping: bool,
    finished: bool,
    worker: Worker,
    accepted: seq<Entry>,
    written: seq<Item>,
    lost: seq<Item>)

  function NewLog(): Log {
    Log([], 0, 0, 0, 0, false, false, Waiting, [], [], [])
  }

  function Pushed(l: Log, e: Entry): (Log, bool) {
    if l.stopping then (l, false)
    else if |l.pending| >= MAX_ENTRIES || Size(e) > MAX_BYTES - l.bytes then
      (l.(dropped := l.dropped + 1, totalDropped := l.totalDropped + 1), false)
    else (l.(pending := l.pending + [e], bytes := l.bytes + Size(e), accepted := l.accepted + [e]), true)
  }

  function AsItems(entries: seq<Entry>): (r: seq<Item>)
    ensures |r| == |entries|
  {
    if entries == [] then [] else AsItems(entries[..|entries| - 1]) + [Line(entries[|entries| - 1])]
  }

  predicate Wakes(l: Log) {
    l.stopping || l.pending != [] || l.dropped > 0
  }

  /** The worker's locked section: everything pending, then a report of the drops so far. */
  function Taken(l: Log): Log {
    var batch := AsItems(l.pending) + (if l.dropped > 0 then [DropReport(l.dropped)] else []);
    l.(pending := [], bytes := 0, dropped := 0,
       worker := if batch == [] && l.stopping then Closing else Writing(batch, l.stopping))
  }

  function WriteDone(l: Log): Log
    requires l.worker.Writing?
  {
    l.(written := l.written + l.worker.batch, worker := if l.worker.last then Closing else Waiting)
  }

  /** The catch around the loop: the batch is gone and the loop is left. */
  function WriteThrew(l: Log): Log
    requires l.worker.Writing?
  {
    l.(lost := l.lost + l.worker.batch, errors := l.errors + 1, worker := Closing)
  }

  function Closed(l: Log, threw: bool): Log {
    l.(errors := l.errors + (if threw then 1 else 0), finished := true, stopping := true, worker := Done)
  }

  datatype Step = PushStep(e: Entry) | StopStep | TakeStep | WriteStep | WriteFault | CloseStep(threw: bool)

  predicate Enabled(l: Log, s: Step) {
    match s
    case PushStep(_) => true
    case StopStep => true
    case TakeStep => l.worker.Waiting? && Wakes(l)
    case WriteStep => l.worker.Writing?
    case WriteFault => l.worker.Writing?
    case CloseStep(_) => l.worker.Closing?
  }

  function Next(l: Log, s: Step): Log
    requires Enabled(l, s)
  {
    match s
    case PushStep(e) => Pushed(l, e).0
    case StopStep => l.(stopping := true)
    case TakeStep => Taken(l)
    case WriteStep => WriteDone(l)
    case WriteFault => WriteThrew(l)
    case CloseStep(threw) => Closed(l, threw)
  }

  // ---------------------------------------------------------------- what every step keeps

  function InFlight(l: Log): seq<Item> {
    if l.worker.Writing? then l.worker.batch else []
  }

  predicate Bounded(l: Log) {
    l.bytes == TotalSize(l.pending) <= 8388608 && |l.pending| <= 4096
  }

  /** Every accepted entry is written, lost with a throwing write, in flight or pending, in
      the order it was accepted; and every drop is reported, in flight or still to report. */
  predicate Conserved(l: Log) {
    && l.accepted == Lines(l.written) + Lines(l.lost) + Lines(InFlight(l)) + l.pending
    && l.totalDropped == Reported(l.written) + Reported(l.lost) + Reported(InFlight(l)) + l.dropped
  }

  /** Where the worker can be, with and without a write fault. */
  predicate Orderly(l: Log) {
    && (l.finished <==> l.worker.Done?)
    && (l.errors == 0 ==> l.lost == [])
    && (l.lost == [] && (l.worker.Closing? || l.worker.Done? || (l.worker.Writing? && l.worker.last)) ==>
          l.stopping && l.pending == [] && l.dropped == 0)
    && (l.worker.Waiting? || l.worker.Writing? ==> l.lost == [])
    && (l.worker.Writing? ==> l.worker.batch != [])
  }

  lemma LinesOf(a: seq<Item>, b: seq<Item>)
    ensures Lines(a + b) == Lines(a) + Lines(b) && Reported(a + b) == Reported(a) + Reported(b)
    decreases |b|
  {
    if b == [] {
      assert a + b == a;
    } else {
      var init := b[..|b| - 1];
      LinesOf(a, init);
      assert (a + b)[..|a + b| - 1] == a + init;
    }
  }

  lemma {:induction false} ItemsOf(entries: seq<Entry>)
    ensures Lines(AsItems(entries)) == entries && Reported(AsItems(entries)) == 0
  {
    if entries != [] {
      ItemsOf(entries[..|entries| - 1]);
      var items := AsItems(entries);
      assert items[..|items| - 1] == AsItems(entries[..|entries| - 1]);
    }
  }

  predicate Inv(l: Log) { Bounded(l) && Conserved(l) && Orderly(l) }

  lemma PushKeeps(l: Log, e: Entry)
    requires Inv(l)
    ensures Inv(Pushed(l, e).0)
  {
    OneMoreSize(l.pending, e);
    hide Lines, Reported, TotalSize;
  }

  lemma OneMoreSize(pending: seq<Entry>, e: Entry)
    ensures TotalSize(pending + [e]) == TotalSize(pending) + Size(e)
  {
    assert (pending + [e])[..|pending|] == pending;
  }

  lemma TakeKeeps(l: Log)
    requires Inv(l) && l.worker.Waiting? && Wakes(l)
    ensures Inv(Taken(l))
  {
    var report := if l.dropped > 0 then [DropReport(l.dropped)] else [];
    ItemsOf(l.pending);
    LinesOf(AsItems(l.pending), report);
    ReportOf(l.dropped);
    hide Lines, Reported, AsItems, TotalSize;
    assert TotalSize([]) == 0;
  }

  lemma ReportOf(n: nat)
    ensures Lines([DropReport(n)]) == [] && Reported([DropReport(n)]) == n
    ensures Lines([]) == [] && Reported([]) == 0 && TotalSize([]) == 0
  {
  }

  lemma WriteKeeps(l: Log)
    requires Inv(l) && l.worker.Writing?
    ensures Inv(WriteDone(l))
  {
    LinesOf(l.written, l.worker.batch);
    ReportOf(0);
    hide Lines, Reported, TotalSize;
    NothingLost(Lines(l.written), Lines(l.worker.batch), l.pending);
  }

  lemma NothingLost(written: seq<Entry>, batch: seq<Entry>, pending: seq<Entry>)
    ensures written + [] + batch + pending == (written + batch) + [] + [] + pending
  {
  }

  lemma FaultKeeps(l: Log)
    requires Inv(l) && l.worker.Writing?
    ensures Inv(WriteThrew(l))
  {
    hide Lines, Reported, TotalSize;
    LinesOf(l.lost, l.worker.batch);
    ReportOf(0);
    FaultedOrder(l);
    hide Orderly;
  }

  lemma FaultedOrder(l: Log)
    requires Orderly(l) && l.worker.Writing?
    ensures Orderly(WriteThrew(l))
  {
    assert |l.lost + l.worker.batch| > 0;
  }

  lemma StepKeeps(l: Log, s: Step)
    requires Inv(l) && Enabled(l, s)
    ensures Inv(Next(l, s))
  {
    match s
    case PushStep(e) => PushKeeps(l, e);
    case StopStep =>
    case TakeStep => TakeKeeps(l);
    case WriteStep => WriteKeeps(l);
    case WriteFault => FaultKeeps(l);
    case CloseStep(threw) => hide Lines, Reported, TotalSize;
  }

  // ---------------------------------------------------------------- whole runs

  predicate IsRun(ls: seq<Log>, steps: seq<Step>) {
    && |ls| == |steps| + 1 && ls[0] == NewLog()
    && forall i :: 0 <= i < |steps| ==> Enabled(ls[i], steps[i]) && ls[i + 1] == Next(ls[i], steps[i])
  }

  lemma {:induction false} RunKeeps(ls: seq<Log>, steps: seq<Step>, i: nat)
    requires IsRun(ls, steps) && i < |ls|
    ensures Inv(ls[i])
  {
    hide *;
    StartsNew(ls, steps);
    if i == 0 {
      NewLogIsSound();
    } else {
      StepAt(ls, steps, i - 1);
      RunKeeps(ls, steps, i - 1);
      StepKeeps(ls[i - 1], steps[i - 1]);
    }
  }

  lemma StartsNew(ls: seq<Log>, steps: seq<Step>)
    requires IsRun(ls, steps)
    ensures |ls| == |steps| + 1 && ls[0] == NewLog()
  {
    hide Enabled, Next, NewLog;
  }

  lemma NewLogIsSound()
    ensures Inv(NewLog())
  {
    hide Lines, Reported, TotalSize;
    ReportOf(0);
    assert InFlight(NewLog()) == [];
  }

  lemma StepAt(ls: seq<Log>, steps: seq<Step>, i: nat)
    requires IsRun(ls, steps) && i + 1 < |ls|
    ensures i < |steps| && Enabled(ls[i], steps[i]) && ls[i + 1] == Next(ls[i], steps[i])
  {
  }

  /** In every interleaving: the counters are exact and bounded, nothing accepted or dropped
      goes unaccounted, and entries leave in the order they were accepted. */
  lemma LogIsConserved(ls: seq<Log>, steps: seq<Step>, i: nat)
    requires IsRun(ls, steps) && i < |ls|
    ensures ls[i].bytes == TotalSize(ls[i].pending) <= 8388608 && |ls[i].pending| <= 4096
    ensures ls[i].accepted == Lines(ls[i].written) + Lines(ls[i].lost) + Lines(InFlight(ls[i])) + ls[i].pending
    ensures ls[i].totalDropped
      == Reported(ls[i].written) + Reported(ls[i].lost) + Reported(InFlight(ls[i])) + ls[i].dropped
    ensures Lines(ls[i].written) <= ls[i].accepted
  {
    RunKeeps(ls, steps, i);
    hide IsRun, Lines, Reported, TotalSize;
  }

  /** How many characters wait to be written. */
  function Characters(entries: seq<Entry>): nat {
    if entries == [] then 0 else Characters(entries[..|entries| - 1]) + |entries[|entries| - 1]|
  }

  lemma {:induction false} TwoBytesEach(entries: seq<Entry>)
    ensures TotalSize(entries) == 2 * Characters(entries)
  {
    if entries != [] {
      TwoBytesEach(entries[..|entries| - 1]);
    }
  }

  /** In every reachable state a push is accepted exactly when the log still runs and the entry
      fits: at most 4096 entries, and 8 MiB at two bytes a character. An entry that does not fit
      is counted, one after the stop is not. */
  lemma PushIsAcceptedExactly(ls: seq<Log>, steps: seq<Step>, i: nat, e: Entry)
    requires IsRun(ls, steps) && i < |ls|
    ensures
      var l := ls[i];
      var (l', ok) := Pushed(l, e);
      var fits := |l.pending| < 4096 && 2 * (Characters(l.pending) + |e|) <= 8388608;
      && (ok <==> !l.stopping && fits)
      && l'.pending == (if ok then l.pending + [e] else l.pending)
      && l'.totalDropped == (if !l.stopping && !fits then l.totalDropped + 1 else l.totalDropped)
  {
    RunKeeps(ls, steps, i);
    TwoBytesEach(ls[i].pending);
    hide IsRun, TotalSize, Characters, Conserved, Orderly;
  }

  /** Once finished without a write fault, everything accepted was written and every drop
      was reported. */
  lemma FinishedMeansWritten(ls: seq<Log>, steps: seq<Step>, i: nat)
    requires IsRun(ls, steps) && i < |ls| && ls[i].finished
    requires forall k :: 0 <= k < i ==> !steps[k].WriteFault?
    ensures Lines(ls[i].written) == ls[i].accepted && Reported(ls[i].written) == ls[i].totalDropped
  {
    RunKeeps(ls, steps, i);
    NoFaultNoLoss(ls, steps, i);
    ReportOf(0);
    hide IsRun, Lines, Reported, TotalSize;
  }

  lemma {:induction false} NoFaultNoLoss(ls: seq<Log>, steps: seq<Step>, i: nat)
    requires IsRun(ls, steps) && i < |ls|
    requires forall k :: 0 <= k < i ==> !steps[k].WriteFault?
    ensures ls[i].lost == []
  {
    if i > 0 {
      NoFaultNoLoss(ls, steps, i - 1);
    }
  }

  /** Once finished, everything accepted was written exactly when no entry was in the batch a
      fault lost and none is stranded in the queue; and likewise for the drops. */
  lemma FinishedAccount(l: Log)
    requires Inv(l) && l.finished
    ensures Lines(l.written) == l.accepted <==> Lines(l.lost) == [] && l.pending == []
    ensures Reported(l.written) == l.totalDropped <==> Reported(l.lost) == 0 && l.dropped == 0
    ensures l.lost == [] ==> l.pending == [] && l.dropped == 0
  {
    hide Lines, Reported, TotalSize;
    ReportOf(0);
    AllWritten(l.accepted, Lines(l.written), Lines(l.lost), l.pending);
  }

  lemma AllWritten(accepted: seq<Entry>, written: seq<Entry>, lost: seq<Entry>, pending: seq<Entry>)
    requires accepted == written + lost + [] + pending
    ensures written == accepted <==> lost == [] && pending == []
  {
    assert |accepted| == |written| + |lost| + |pending|;
  }

  predicate FaultBefore(steps: seq<Step>, i: nat)
    requires i <= |steps|
  {
    exists j :: 0 <= j < i && steps[j].WriteFault?
  }

  /** Step k takes an accepted entry away for good: a write fault with an entry in its batch or
      in the queue, or a push accepted after a fault. */
  predicate Loses(ls: seq<Log>, steps: seq<Step>, k: nat)
    requires k < |steps| < |ls|
  {
    match steps[k]
    case WriteFault => ls[k].worker.Writing? && (Lines(ls[k].worker.batch) != [] || ls[k].pending != [])
    case PushStep(e) => Pushed(ls[k], e).1 && FaultBefore(steps, k)
    case StopStep => false
    case TakeStep => false
    case WriteStep => false
    case CloseStep(_) => false
  }

  predicate Lossy(l: Log) {
    Lines(l.lost) != [] || (l.lost != [] && l.pending != [])
  }

  /** What one step adds to the account of the losses. */
  lemma LossStep(l: Log, s: Step)
    requires Inv(l) && Enabled(l, s)
    ensures Next(l, s).lost != [] <==> l.lost != [] || s.WriteFault?
    ensures Lossy(Next(l, s)) <==>
              || Lossy(l)
              || (s.WriteFault? && (Lines(l.worker.batch) != [] || l.pending != []))
              || (s.PushStep? && Pushed(l, s.e).1 && l.lost != [])
  {
    ReportOf(0);
    if s.WriteFault? {
      LinesOf(l.lost, l.worker.batch);
      assert l.lost + l.worker.batch == l.worker.batch;
    }
    hide Lines, Reported, TotalSize, AsItems, Conserved, Bounded;
  }

  lemma {:induction false} LossesTell(ls: seq<Log>, steps: seq<Step>, i: nat)
    requires IsRun(ls, steps) && i < |ls|
    ensures i <= |steps| && (ls[i].lost != [] <==> FaultBefore(steps, i))
    ensures Lossy(ls[i]) <==> exists k :: 0 <= k < i && Loses(ls, steps, k)
  {
    if i == 0 {
      ReportOf(0);
    } else {
      RunKeeps(ls, steps, i - 1);
      StepAt(ls, steps, i - 1);
      LossesTell(ls, steps, i - 1);
      LossStep(ls[i - 1], steps[i - 1]);
      hide IsRun, Inv, Lossy, Enabled, Next, Lines;
      FaultSplit(steps, i);
      LossSplit(ls, steps, i);
    }
  }

  lemma FaultSplit(steps: seq<Step>, i: nat)
    requires 0 < i <= |steps|
    ensures FaultBefore(steps, i) <==> FaultBefore(steps, i - 1) || steps[i - 1].WriteFault?
  {
  }

  lemma LossSplit(ls: seq<Log>, steps: seq<Step>, i: nat)
    requires 0 < i <= |steps| < |ls|
    ensures (exists k :: 0 <= k < i && Loses(ls, steps, k))
            <==> (exists k :: 0 <= k < i - 1 && Loses(ls, steps, k)) || Loses(ls, steps, i - 1)
  {
    hide Loses;
  }

  /** For every finished run: everything accepted was written exactly when no fault hit a
      batch with an entry or came with entries in the queue, and no push was accepted after a
      fault. */
  lemma WrittenExactly(ls: seq<Log>, steps: seq<Step>, i: nat)
    requires IsRun(ls, steps) && i < |ls| && ls[i].finished
    ensures i <= |steps|
    ensures Lines(ls[i].written) == ls[i].accepted <==> !exists k :: 0 <= k < i && Loses(ls, steps, k)
  {
    RunKeeps(ls, steps, i);
    LossesTell(ls, steps, i);
    FinishedAccount(ls[i]);
    ReportOf(0);
    hide IsRun, Inv, Loses, Lines;
  }

  /** The loss is real in each case. A push accepted after the fault and before the worker has
      finished is never written, though its producer was told true. */
  lemma FaultLosesAcceptedEntries(e: Entry)
    requires Size(e) <= MAX_BYTES
    ensures
      var l0 := Pushed(NewLog(), e).0;
      var l1 := WriteThrew(Taken(l0));
      var l2 := Pushed(l1, e).0;
      var l3 := Closed(l2, false);
      && Wakes(l0) && Taken(l0).worker.Writing? && l1.worker.Closing? && Pushed(l1, e).1
      && l3.finished && l3.pending == [e] && l3.written == []
  {
  }

  /** And one accepted while the batch is being written is lost with the fault, even when that
      batch holds only a drop report and nothing is accepted afterwards. */
  lemma FaultStrandsPendingEntries(big: Entry, e: Entry)
    requires Size(big) > MAX_BYTES && Size(e) <= MAX_BYTES
    ensures
      var l0 := Pushed(NewLog(), big).0;
      var l1 := Taken(l0);
      var l2 := Pushed(l1, e).0;
      var l3 := Closed(WriteThrew(l2), false);
      && Wakes(l0) && l1.worker == Writing([DropReport(1)], false) && Pushed(l1, e).1
      && l3.finished && l3.accepted == [e] && l3.pending == [e] && l3.written == []
  {
  }

  // ---------------------------------------------------------------- the queue itself

  class Queue {
    var pending: seq<Entry>
    var bytes: nat
    var dropped: nat
    var totalDropped: nat
    var errors: nat
    var stopping: bool
    var finished: bool
    ghost var worker: Worker
    ghost var accepted: seq<Entry>
    ghost var written: seq<Item>
    ghost var lost: seq<Item>

    constructor ()
      ensures View() == NewLog()
    {
      pending, bytes, dropped, totalDropped, errors, stopping, finished := [], 0, 0, 0, 0, false, false;
      worker, accepted, written, lost := Waiting, [], [], [];
    }

    ghost function View(): Log
      reads this
    {
      Log(pending, bytes, dropped, totalDropped, errors, stopping, finished, worker, accepted, written, lost)
    }

    method Push(entry: Entry) returns (ok: bool)
      modifies `pending, `bytes, `dropped, `totalDropped, `accepted
      ensures (View(), ok) == Pushed(old(View()), entry)
      ensures
        var fits := |old(pending)| < 4096 && old(bytes) + 2 * |entry| <= 8388608;
        && (ok <==> !old(stopping) && fits)
        && pending == (if ok then old(pending) + [entry] else old(pending))
        && bytes == (if ok then old(bytes) + 2 * |entry| else old(bytes))
        && dropped == (if !old(stopping) && !fits then old(dropped) + 1 else old(dropped))
        && totalDropped == (if !old(stopping) && !fits then old(totalDropped) + 1 else old(totalDropped))
    {
      if stopping {
        return false;
      }
      var size := |entry| * WCHAR_SIZE;
      if |pending| >= MAX_ENTRIES || size > MAX_BYTES - bytes {
        dropped, totalDropped := dropped + 1, totalDropped + 1;
        return false;
      }
      pending, bytes := pending + [entry], bytes + size;
      accepted := accepted + [entry];
      ok := true;
    }

    method Stop()
      modifies `stopping
      ensures View() == Next(old(View()), StopStep)
    {
      stopping := true;
    }

    method DrainPending() returns (batch: seq<Item>)
      modifies `pending
      ensures pending == [] && batch == AsItems(old(pending))
    {
      batch := [];
      ghost var n := 0;
      while pending != []
        invariant n <= |old(pending)| && pending == old(pending)[n..]
        invariant batch == AsItems(old(pending)[..n])
        decreases |pending|
      {
        assert old(pending)[..n + 1][..n] == old(pending)[..n];
        batch := batch + [Line(pending[0])];
        pending := pending[1..];
        n := n + 1;
      }
      assert old(pending)[..n] == old(pending);
    }

    /** The worker's locked section; the wait has returned. */
    method TakeBatch() returns (batch: seq<Item>, last: bool)
      requires worker.Waiting? && Wakes(View())
      modifies `pending, `bytes, `dropped, `worker
      ensures View() == Taken(old(View())) && last == old(stopping)
      ensures worker == if batch == [] && last then Closing else Writing(batch, last)
    {
      hide AsItems, Wakes;
      batch := DrainPending();
      bytes := 0;
      var report := TakeDrops();
      batch := batch + report;
      last := stopping;
      worker := if batch == [] && last then Closing else Writing(batch, last);
    }

    method TakeDrops() returns (report: seq<Item>)
      modifies `dropped
      ensures dropped == 0 && report == if old(dropped) > 0 then [DropReport(old(dropped))] else []
    {
      report := [];
      if dropped > 0 {
        report := [DropReport(dropped)];
        dropped := 0;
      }
    }
  }
}
