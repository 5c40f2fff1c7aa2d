/** Whole runs of the diagnostic journal: what holds in every state, what each bundle holds,
    and exactly when retention deletes a file that is still in use. */
module JournalRuns {
  import opened Journal

  function EndOf(op: Op): nat { if op.Mark? then op.later else op.now }

  /** A monotone clock. */
  predicate Timely(op: Op, clock: nat) {
    if op.Mark? then clock <= op.errorAt <= op.now <= op.later else clock <= op.now
  }

  function Applied(j: State, op: Op): State
    requires Countable(j)
  {
    match op
    case Write(size, now) => Written(j, size, now)
    case Mark(_, _, _, _, _, _, _) => Marked(j, op)
    case Finish(size, now) => Finished(j, size, now)
  }

  predicate Step(j: State, op: Op, clock: nat, j': State, clock': nat) {
    Countable(j) && Timely(op, clock) && clock' == EndOf(op) && j' == Applied(j, op)
  }

  predicate IsRun(js: seq<State>, ops: seq<Op>, clocks: seq<nat>) {
    && |js| == |clocks| == |ops| + 1 && js[0] == NewJournal()
    && forall i :: 0 <= i < |ops| ==> Step(js[i], ops[i], clocks[i], js[i + 1], clocks[i + 1])
  }

  lemma StepAt(js: seq<State>, ops: seq<Op>, clocks: seq<nat>, i: nat)
    requires IsRun(js, ops, clocks) && i + 1 < |js|
    ensures i < |ops| && i + 1 < |clocks| && Step(js[i], ops[i], clocks[i], js[i + 1], clocks[i + 1])
  {
  }

  lemma StepKeeps(j: State, op: Op, clock: nat)
    requires Inv(j, clock) && Timely(op, clock)
    ensures Countable(j) && Inv(Applied(j, op), EndOf(op))
  {
    hide Inv, Written, Marked, Finished, Countable;
    if op.Write? {
      WriteKeeps(j, op.size, op.now, clock);
    } else if op.Mark? {
      MarkKeeps(j, op, clock);
    } else {
      FinishKeeps(j, op.size, op.now, clock);
    }
  }

  lemma {:induction false} RunKeeps(js: seq<State>, ops: seq<Op>, clocks: seq<nat>, i: nat)
    requires IsRun(js, ops, clocks) && i < |js|
    ensures i < |clocks| && Inv(js[i], clocks[i])
  {
    if i == 0 {
      InvInitially(clocks[0]);
      hide Inv, Step;
    } else {
      hide IsRun, Inv, Applied, Countable;
      StepAt(js, ops, clocks, i - 1);
      RunKeeps(js, ops, clocks, i - 1);
      StepKeeps(js[i - 1], ops[i - 1], clocks[i - 1]);
    }
  }

  /** In every reachable state the history is the longest suffix within 120 s and 8 MiB, its
      byte count exact; the rotated files are a suffix of everything written; open bundles are
      numbered upwards, end later and hold less the newer they are, and hold exactly the lines
      since their first one; ended bundles hold consecutive lines of at most 16 MiB. */
  lemma JournalKeepsItsPromises(js: seq<State>, ops: seq<Op>, clocks: seq<nat>, i: nat)
    requires IsRun(js, ops, clocks) && i < |js|
    ensures i < |clocks| && HistoryOk(js[i], clocks[i]) && NumberedOk(js[i]) && FilesOk(js[i])
    ensures js[i].history == [] || (clocks[i] - js[i].history[0].at <= 120000 && Weight(js[i].history) <= 8388608)
    ensures Ordered(js[i].bundles) && MarkersOk(js[i], clocks[i])
    ensures forall b :: 0 <= b < |js[i].bundles| ==> BundleOk(js[i].bundles[b], js[i])
    ensures forall b :: 0 <= b < |js[i].ended| ==> RunOk(js[i].ended[b], js[i].all)
  {
    RunKeeps(js, ops, clocks, i);
    InWindowNow(js, ops, clocks, i);
    hide IsRun, HistoryOk, NumberedOk, FilesOk, BundleOk, RunOk, Ordered, Clocked, MarkersOk, Weight;
  }

  lemma InWindowNow(js: seq<State>, ops: seq<Op>, clocks: seq<nat>, i: nat)
    requires IsRun(js, ops, clocks) && i < |js|
    ensures WithinLimits(js[i].history, clocks[i])
  {
    hide Weight, Countable, WithinLimits, Applied, Timely;
    if i > 0 {
      StepAt(js, ops, clocks, i - 1);
      AppliedInWindow(js[i - 1], ops[i - 1]);
    } else {
      NothingYet(clocks[0]);
    }
  }

  lemma NothingYet(clock: nat)
    ensures WithinLimits(NewJournal().history, clock)
  {
  }

  lemma AppliedInWindow(j: State, op: Op)
    requires Countable(j)
    ensures WithinLimits(Applied(j, op).history, EndOf(op))
  {
    hide Written, WithinLimits, AtCopy, Opened;
    match op
    case Write(size, now) => WrittenInWindow(j, size, now);
    case Mark(_, _, _, _, _, _, _) => WrittenInWindow(Opened(AtCopy(j, op), op.created, op.now), op.size, op.later);
    case Finish(size, now) => WrittenInWindow(j, size, now);
  }

  // ---------------------------------------------------------------- what a bundle holds

  /** Every bundle with this number begins with these lines, the first of them line start. */
  predicate Begins(bundles: seq<Bundle>, id: nat, start: nat, lines: seq<Line>) {
    forall i :: 0 <= i < |bundles| && bundles[i].id == id ==> bundles[i].start == start && lines <= bundles[i].body
  }

  predicate BeginsWith(j: State, id: nat, start: nat, lines: seq<Line>) {
    Begins(j.bundles, id, start, lines) && Begins(j.ended, id, start, lines)
  }

  lemma {:induction false} FedBegins(bundles: seq<Bundle>, line: Line, id: nat, start: nat, lines: seq<Line>)
    requires Begins(bundles, id, start, lines)
    ensures Begins(Feed(bundles, line), id, start, lines) && Begins(EndedBy(bundles, line), id, start, lines)
    decreases |bundles|
  {
    if bundles != [] {
      assert forall i :: 0 <= i < |bundles[1..]| ==> bundles[1..][i] == bundles[i + 1];
      FedBegins(bundles[1..], line, id, start, lines);
      assert bundles[0].id == id ==> lines <= bundles[0].body + [line];
    }
  }

  lemma WrittenBegins(j: State, size: nat, now: nat, id: nat, start: nat, lines: seq<Line>)
    requires Countable(j) && BeginsWith(j, id, start, lines)
    ensures BeginsWith(Written(j, size, now), id, start, lines)
  {
    var line := Line(j.sequence + 1, size, now);
    FedBegins(j.bundles, line, id, start, lines);
    WrittenIs(j, size, now);
    hide Written, Trimmed, Appended, Feed, EndedBy, Begins, Countable;
  }

  lemma CopyBegins(j: State, op: Op, id: nat, start: nat, lines: seq<Line>)
    requires Countable(j) && op.Mark? && BeginsWith(j, id, start, lines)
    ensures BeginsWith(AtCopy(j, op), id, start, lines)
  {
    var r := MadeRoom(Bumped(j));
    if r.nextMarker > MAX_BUNDLES && !op.removed {
      WrittenBegins(r, op.errorSize, op.errorAt, id, start, lines);
    }
    hide Written, Begins;
  }

  lemma MarkedBegins(j: State, op: Op, id: nat, start: nat, lines: seq<Line>)
    requires Countable(j) && op.Mark? && BeginsWith(j, id, start, lines) && AtCopy(j, op).nextMarker != id
    ensures BeginsWith(Marked(j, op), id, start, lines)
  {
    CopyBegins(j, op, id, start, lines);
    var r := AtCopy(j, op);
    var o := Opened(r, op.created, op.now);
    assert BeginsWith(o, id, start, lines);
    hide AtCopy, Begins, Opened, Written;
    WrittenBegins(o, op.size, op.later, id, start, lines);
  }

  lemma AppliedBegins(j: State, op: Op, clock: nat, id: nat, start: nat, lines: seq<Line>)
    requires Inv(j, clock) && Timely(op, clock) && Countable(j) && BeginsWith(j, id, start, lines) && id <= j.nextMarker
    ensures BeginsWith(Applied(j, op), id, start, lines) && id <= Applied(j, op).nextMarker
  {
    if op.Write? {
      WrittenBegins(j, op.size, op.now, id, start, lines);
      NumberStays(j, op.size, op.now);
    } else if op.Mark? {
      CopyReady(j, op, clock);
      MarkedBegins(j, op, id, start, lines);
      NumberStays(Opened(AtCopy(j, op), op.created, op.now), op.size, op.later);
    } else {
      WrittenBegins(j, op.size, op.now, id, start, lines);
      NumberStays(j, op.size, op.now);
      var w := Written(j, op.size, op.now);
    }
    hide Inv, Written, AtCopy, Countable;
  }

  lemma NumberStays(j: State, size: nat, now: nat)
    requires Countable(j)
    ensures Written(j, size, now).nextMarker == j.nextMarker && Written(j, size, now).kept == j.kept
  {
    hide Trim, Feed, EndedBy, Weight;
  }

  /** In state j, the bundle this Mark opened in state m begins with the history of that moment. */
  predicate HoldsHistory(j: State, m: State, op: Op)
    requires Countable(m) && op.Mark?
  {
    var h := AtCopy(m, op);
    BeginsWith(j, m.nextMarker + 1, h.sequence - |h.history|, h.history) && m.nextMarker + 1 <= j.nextMarker
  }

  /** A bundle begins with exactly the history of its marker's moment, open or ended, for good. */
  lemma {:induction false} BundleHoldsItsHistory(js: seq<State>, ops: seq<Op>, clocks: seq<nat>, i: nat, k: nat)
    requires IsRun(js, ops, clocks) && i < k < |js| && i < |ops| && ops[i].Mark? && ops[i].created && Countable(js[i])
    ensures HoldsHistory(js[k], js[i], ops[i])
    decreases k
  {
    hide *;
    StepAt(js, ops, clocks, k - 1);
    RunKeeps(js, ops, clocks, k - 1);
    if k == i + 1 {
      MarkHolds(js[i], ops[i], clocks[i], js[k], clocks[k]);
    } else {
      BundleHoldsItsHistory(js, ops, clocks, i, k - 1);
      StillHolds(js[k - 1], ops[k - 1], clocks[k - 1], js[k], clocks[k], js[i], ops[i]);
    }
  }

  lemma StillHolds(j: State, op: Op, clock: nat, j': State, clock': nat, m: State, mark: Op)
    requires Inv(j, clock) && Step(j, op, clock, j', clock') && Countable(m) && mark.Mark? && HoldsHistory(j, m, mark)
    ensures HoldsHistory(j', m, mark)
  {
    hide Inv, BeginsWith, Weight, AtCopy, Applied, Timely;
    var h := AtCopy(m, mark);
    AppliedBegins(j, op, clock, m.nextMarker + 1, h.sequence - |h.history|, h.history);
  }

  lemma MarkHolds(m: State, op: Op, clock: nat, j: State, clock': nat)
    requires Inv(m, clock) && Step(m, op, clock, j, clock') && op.Mark? && op.created
    ensures HoldsHistory(j, m, op)
  {
    hide Inv, AtCopy, Opened, Written, BeginsWith, Room, Applied, Weight, Feed, EndedBy, Trim;
    MarkApplied(m, op);
    CopyReady(m, op, clock);
    OpenedBegins(AtCopy(m, op), op.now);
    OpenedNumber(AtCopy(m, op), op.now);
    LineAfter(Opened(AtCopy(m, op), true, op.now), AtCopy(m, op), op);
  }

  lemma LineAfter(o: State, h: State, op: Op)
    requires Countable(o) && Countable(h) && op.Mark? && o.nextMarker == h.nextMarker
    requires BeginsWith(o, h.nextMarker, h.sequence - |h.history|, h.history)
    ensures BeginsWith(Written(o, op.size, op.later), h.nextMarker, h.sequence - |h.history|, h.history)
    ensures Written(o, op.size, op.later).nextMarker == h.nextMarker
  {
    WrittenBegins(o, op.size, op.later, h.nextMarker, h.sequence - |h.history|, h.history);
    NumberStays(o, op.size, op.later);
    hide Written, BeginsWith;
  }

  lemma MarkApplied(j: State, op: Op)
    requires Countable(j) && op.Mark? && op.created
    ensures Applied(j, op) == Written(Opened(AtCopy(j, op), true, op.now), op.size, op.later)
  {
    hide Written, AtCopy, Countable;
  }

  lemma OpenedNumber(h: State, now: nat)
    requires Countable(h)
    ensures Opened(h, true, now).nextMarker == h.nextMarker
  {
  }

  lemma OpenedBegins(h: State, now: nat)
    requires Countable(h) && Room(h)
    ensures BeginsWith(Opened(h, true, now), h.nextMarker, h.sequence - |h.history|, h.history)
  {
  }

  // ---------------------------------------------------------------- retention

  /** Once the oldest of 20 open bundles has made room, the bundle whose marker is 20 back is open. */
  predicate TwentyBackOpen(j: State) {
    && j.nextMarker >= MAX_BUNDLES
    && exists i :: 0 <= i < |MadeRoom(j).bundles| && MadeRoom(j).bundles[i].id == j.nextMarker + 1 - MAX_BUNDLES
  }

  /** Marking deletes the file of a bundle that is still open. */
  predicate DeletesOpenFile(j: State, op: Op)
    requires Countable(j) && op.Mark?
  {
    var r := AtCopy(j, op);
    exists i :: 0 <= i < |r.bundles| && r.bundles[i].id in j.kept && r.bundles[i].id !in r.kept
  }

  lemma DeletesExactly(j: State, op: Op, clock: nat)
    requires Inv(j, clock) && Countable(j) && op.Mark?
    ensures DeletesOpenFile(j, op) <==> op.removed && TwentyBackOpen(j)
  {
    MarkersOf(j, clock);
    RetainedFiles(j, op);
    hide Inv, Countable, MadeRoom, AtCopy;
    if op.removed && TwentyBackOpen(j) {
      FileLost(j, op);
    }
  }

  /** What the retention does to the files. */
  lemma RetainedFiles(j: State, op: Op)
    requires Countable(j) && op.Mark?
    ensures
      var r := AtCopy(j, op);
      && (!op.removed || j.nextMarker < MAX_BUNDLES ==> r.kept == j.kept)
      && (op.removed ==> r.bundles == MadeRoom(j).bundles)
      && (op.removed && j.nextMarker >= MAX_BUNDLES ==> r.kept == j.kept - {j.nextMarker + 1 - MAX_BUNDLES})
  {
    var m := MadeRoom(Bumped(j));
    NumberStays(m, op.errorSize, op.errorAt);
    hide Written, Countable, MadeRoom;
  }

  lemma FileLost(j: State, op: Op)
    requires Countable(j) && op.Mark? && op.removed && TwentyBackOpen(j)
    requires forall b :: b in j.bundles ==> b.id + MAX_BUNDLES > j.nextMarker ==> b.id in j.kept
    ensures DeletesOpenFile(j, op)
  {
    RetainedFiles(j, op);
    var r := AtCopy(j, op);
    var i :| 0 <= i < |MadeRoom(j).bundles| && MadeRoom(j).bundles[i].id == j.nextMarker + 1 - MAX_BUNDLES;
    hide Countable, MadeRoom, AtCopy;
    assert r.bundles[i] in j.bundles;
    assert r.bundles[i].id in j.kept && r.bundles[i].id !in r.kept;
  }

  lemma MarkersOf(j: State, clock: nat)
    requires Inv(j, clock)
    ensures MarkersOk(j, clock)
    ensures forall b :: b in j.bundles ==>
      b.id <= j.nextMarker && (b.id + MAX_BUNDLES > j.nextMarker ==> b.id in j.kept)
  {
    hide Clocked, HistoryOk, NumberedOk, FilesOk, BundlesOk, EndedOk, Ordered;
  }

  /** In every run, whatever fails: marking deletes the file of an open bundle exactly when the
      deletion works and, room made, the bundle 20 markers back is still open. */
  lemma RetentionDeletesOpenFileExactly(js: seq<State>, ops: seq<Op>, clocks: seq<nat>, i: nat)
    requires IsRun(js, ops, clocks) && i < |ops| && ops[i].Mark?
    ensures Countable(js[i]) && (DeletesOpenFile(js[i], ops[i]) <==> ops[i].removed && TwentyBackOpen(js[i]))
  {
    StepAt(js, ops, clocks, i);
    RunKeeps(js, ops, clocks, i);
    hide IsRun, Inv, DeletesOpenFile, TwentyBackOpen, Applied;
    DeletesExactly(js[i], ops[i], clocks[i]);
  }

  /** The open bundles are the newest markers. */
  predicate Consecutive(bundles: seq<Bundle>, top: nat) {
    forall i :: 0 <= i < |bundles| ==> bundles[i].id == top - |bundles| + 1 + i
  }

  lemma FedConsecutive(j: State, size: nat, now: nat)
    requires Countable(j) && Ordered(j.bundles) && Consecutive(j.bundles, j.nextMarker)
    ensures Consecutive(Written(j, size, now).bundles, j.nextMarker)
  {
    var line := Line(j.sequence + 1, size, now);
    var c := OnlyAPrefixEnds(j.bundles, line);
    WrittenIs(j, size, now);
    hide Written, Ordered, Ends, Feed, EndedBy, Trimmed, Appended;
  }

  lemma CopyConsecutive(j: State, op: Op, clock: nat)
    requires Inv(j, clock) && Countable(j) && op.Mark? && Consecutive(j.bundles, j.nextMarker)
    ensures Consecutive(AtCopy(j, op).bundles, j.nextMarker)
  {
    var m := MadeRoom(Bumped(j));
    assert Consecutive(m.bundles, j.nextMarker);
    RoomMade(j, clock);
    OrderedOf(m, clock);
    if m.nextMarker > MAX_BUNDLES && !op.removed {
      FedBelow(m, op.errorSize, op.errorAt, j.nextMarker);
    }
    hide Inv, Written, Ordered, Countable, Consecutive, Room;
  }

  lemma FedBelow(j: State, size: nat, now: nat, top: nat)
    requires Countable(j) && Ordered(j.bundles) && Consecutive(j.bundles, top)
    ensures Consecutive(Written(j, size, now).bundles, top)
  {
    var line := Line(j.sequence + 1, size, now);
    var c := OnlyAPrefixEnds(j.bundles, line);
    WrittenIs(j, size, now);
    hide Written, Ordered, Ends, Feed, EndedBy, Trimmed, Appended;
  }

  predicate AllCreated(ops: seq<Op>) {
    forall i :: 0 <= i < |ops| && ops[i].Mark? ==> ops[i].created
  }

  lemma StepConsecutive(j: State, op: Op, clock: nat)
    requires Inv(j, clock) && Countable(j) && Timely(op, clock) && (op.Mark? ==> op.created)
      && Consecutive(j.bundles, j.nextMarker)
    ensures Consecutive(Applied(j, op).bundles, Applied(j, op).nextMarker)
  {
    OrderedOf(j, clock);
    if op.Write? {
      FedConsecutive(j, op.size, op.now);
      NumberStays(j, op.size, op.now);
    } else if op.Mark? {
      MarkConsecutive(j, op, clock);
    }
    hide Inv, Written, Marked, Ordered, Countable;
  }

  lemma MarkConsecutive(j: State, op: Op, clock: nat)
    requires Inv(j, clock) && Countable(j) && Timely(op, clock) && op.Mark? && op.created
      && Consecutive(j.bundles, j.nextMarker)
    ensures Consecutive(Marked(j, op).bundles, Marked(j, op).nextMarker)
  {
    CopyReady(j, op, clock);
    CopyConsecutive(j, op, clock);
    var h := AtCopy(j, op);
    Later(h, op.errorAt, op.now);
    OpenedKeeps(h, true, op.now);
    var o := Opened(h, true, op.now);
    OpenedNumber(h, op.now);
    OneMoreConsecutive(h, op.now);
    OrderedOf(o, op.now);
    hide Inv, AtCopy, Opened, Written, Ordered, Countable, Consecutive, Room;
    FedConsecutive(o, op.size, op.later);
    NumberStays(o, op.size, op.later);
  }

  lemma OneMoreConsecutive(h: State, now: nat)
    requires Countable(h) && h.nextMarker > 0 && Consecutive(h.bundles, h.nextMarker - 1)
    ensures Consecutive(Opened(h, true, now).bundles, h.nextMarker)
  {
  }

  lemma {:induction false} CreatedStaysConsecutive(js: seq<State>, ops: seq<Op>, clocks: seq<nat>, i: nat)
    requires IsRun(js, ops, clocks) && AllCreated(ops) && i < |js|
    ensures Consecutive(js[i].bundles, js[i].nextMarker)
  {
    hide *;
    StartsConsecutive(js, ops, clocks);
    if i > 0 {
      StepAt(js, ops, clocks, i - 1);
      RunKeeps(js, ops, clocks, i - 1);
      CreatedStaysConsecutive(js, ops, clocks, i - 1);
      CreatedAt(ops, i - 1);
      StepConsecutive(js[i - 1], ops[i - 1], clocks[i - 1]);
    }
  }

  lemma StartsConsecutive(js: seq<State>, ops: seq<Op>, clocks: seq<nat>)
    requires IsRun(js, ops, clocks)
    ensures |js| == |ops| + 1 == |clocks| && Consecutive(js[0].bundles, js[0].nextMarker)
  {
    hide Step;
  }

  lemma CreatedAt(ops: seq<Op>, i: nat)
    requires AllCreated(ops) && i < |ops|
    ensures ops[i].Mark? ==> ops[i].created
  {
  }

  /** If every bundle file is created, the open bundles are the newest markers, all their files
      exist, and retention never deletes the file of an open bundle. */
  lemma CreatedBundlesKeepTheirFiles(js: seq<State>, ops: seq<Op>, clocks: seq<nat>, i: nat)
    requires IsRun(js, ops, clocks) && AllCreated(ops) && i < |js|
    ensures Consecutive(js[i].bundles, js[i].nextMarker)
    ensures forall b :: 0 <= b < |js[i].bundles| ==> js[i].bundles[b].id in js[i].kept
    ensures !TwentyBackOpen(js[i])
    ensures i < |ops| && ops[i].Mark? ==> Countable(js[i]) && !DeletesOpenFile(js[i], ops[i])
  {
    CreatedStaysConsecutive(js, ops, clocks, i);
    RunKeeps(js, ops, clocks, i);
    MarkersOf(js[i], clocks[i]);
    if i < |ops| && ops[i].Mark? {
      RetentionDeletesOpenFileExactly(js, ops, clocks, i);
    }
    hide IsRun, Inv, DeletesOpenFile;
  }

  // ---------------------------------------------------------------- a run in which it does

  /** The state of a fresh journal after one good marker and n failed ones, all at time 0. */
  predicate OneOpen(j: State, n: nat) {
    && Countable(j) && j.nextMarker == n + 1 && j.kept == {1}
    && |j.bundles| == 1 && j.bundles[0].id == 1 && j.bundles[0].until == POST_MS && j.bundles[0].bytes == 200 * (n + 1)
  }

  function FailedMark(removed: bool): Op {
    Op.Mark(false, removed, 200, 0, 200, 0, 0)
  }

  lemma FirstMark()
    ensures OneOpen(Applied(NewJournal(), Op.Mark(true, true, 200, 0, 200, 0, 0)), 0)
  {
    var op := Op.Mark(true, true, 200, 0, 200, 0, 0);
    var o := Opened(AtCopy(NewJournal(), op), true, 0);
    WrittenIs(o, 200, 0);
    hide Written, Trimmed, Appended;
  }

  lemma NextFails(j: State, n: nat)
    requires OneOpen(j, n) && n < 19
    ensures OneOpen(Applied(j, FailedMark(true)), n + 1)
  {
    var o := AtCopy(j, FailedMark(true));
    WrittenIs(o, 200, 0);
    hide Written, Trimmed, Appended, Weight;
  }

  lemma StartingRun() returns (js: seq<State>, ops: seq<Op>, clocks: seq<nat>)
    ensures IsRun(js, ops, clocks) && |ops| == 1 && clocks[1] == 0 && OneOpen(js[1], 0) && ops[0].Mark?
      && ops[0].created
  {
    var j0 := NewJournal();
    var op := Op.Mark(true, true, 200, 0, 200, 0, 0);
    FirstMark();
    js, ops, clocks := [j0, Applied(j0, op)], [op], [0, 0];
    assert Step(js[0], op, 0, js[1], 0) by { NewCountable(); }
    hide Applied, Countable, OneOpen, Step;
  }

  lemma {:induction false} FailingRun(n: nat) returns (js: seq<State>, ops: seq<Op>, clocks: seq<nat>)
    requires n <= 19
    ensures IsRun(js, ops, clocks) && |ops| == n + 1 && clocks[n + 1] == 0 && OneOpen(js[n + 1], n)
    ensures ops[0].Mark? && ops[0].created && forall i :: 0 < i < |ops| ==> ops[i] == FailedMark(true)
  {
    if n == 0 {
      js, ops, clocks := StartingRun();
    } else {
      var before, past, times := FailingRun(n - 1);
      var j := before[n];
      NextFails(j, n - 1);
      var j' := Applied(j, FailedMark(true));
      assert Step(j, FailedMark(true), 0, j', 0);
      hide *;
      RunExtended(before, past, times, FailedMark(true), j', 0);
      js, ops, clocks := before + [j'], past + [FailedMark(true)], times + [0];
    }
  }

  lemma NewCountable()
    ensures Countable(NewJournal())
  {
  }

  lemma RunExtended(js: seq<State>, ops: seq<Op>, clocks: seq<nat>, op: Op, j: State, clock: nat)
    requires IsRun(js, ops, clocks) && |js| == |clocks| == |ops| + 1
    requires Step(js[|ops|], op, clocks[|ops|], j, clock)
    ensures IsRun(js + [j], ops + [op], clocks + [clock])
  {
    hide Step;
    var js', ops', clocks' := js + [j], ops + [op], clocks + [clock];
    forall i | 0 <= i < |ops'| ensures Step(js'[i], ops'[i], clocks'[i], js'[i + 1], clocks'[i + 1]) {
      if i < |ops| {
        assert Step(js[i], ops[i], clocks[i], js[i + 1], clocks[i + 1]);
      }
    }
  }

  /** A run reaches it: the first marker's bundle opens, the next nineteen fail within its
      window, and the twenty-first deletes the first one's file while it is open. */
  lemma FailedCreationsBreakRetention() returns (js: seq<State>, ops: seq<Op>, clocks: seq<nat>)
    ensures IsRun(js, ops, clocks) && |ops| == 21
      && (forall i :: 0 <= i < 21 ==> ops[i].Mark? && (ops[i].created <==> i == 0))
    ensures Countable(js[20]) && DeletesOpenFile(js[20], ops[20])
    ensures |js[21].bundles| == 1 && js[21].bundles[0].id == 1 && 1 !in js[21].kept
  {
    var before, past, times := FailingRun(19);
    var j := before[20];
    LastDeletes(j);
    var j' := Applied(j, FailedMark(true));
    assert Step(j, FailedMark(true), 0, j', 0);
    hide Applied, Countable, OneOpen, Step, DeletesOpenFile;
    RunExtended(before, past, times, FailedMark(true), j', 0);
    js, ops, clocks := before + [j'], past + [FailedMark(true)], times + [0];
  }

  lemma LastDeletes(j: State)
    requires OneOpen(j, 19)
    ensures DeletesOpenFile(j, FailedMark(true))
    ensures
      var j' := Applied(j, FailedMark(true));
      |j'.bundles| == 1 && j'.bundles[0].id == 1 && 1 !in j'.kept
  {
    var o := AtCopy(j, FailedMark(true));
    assert o.bundles[0].id == 1;
    WrittenIs(o, 200, 0);
    hide Written, Trimmed, Appended, Weight;
  }
}
