/** The diagnostic journal of DebugAudioMonitor.hpp: a rotated log, a sliding history window
    and the marker bundles that start with it. */
module Journal {
  // Text is kept as its line number, size and time.

  const FILE_LIMIT: nat := 32 * 1024 * 1024
  const HISTORY_LIMIT: nat := 8 * 1024 * 1024
  const HISTORY_MS: nat := 120000
  const BUNDLE_LIMIT: nat := 16 * 1024 * 1024
  const POST_MS: nat := 30000
  const MAX_BUNDLES: nat := 20

  datatype Line = Line(number: nat, size: nat, at: nat)

  function Weight(lines: seq<Line>): nat {
    if lines == [] then 0 else Weight(lines[..|lines| - 1]) + lines[|lines| - 1].size
  }

  /** A marker bundle: its file's lines, the counters that end it, and how many lines had been
      written before its first one. */
  datatype Bundle = Bundle(id: nat, until: nat, bytes: nat, start: nat, body: seq<Line>)

  /** `files` holds the current log and its three predecessors, `kept` the files of
      created bundles still on disk, `ended` the bundles that were ended, and `all` every line ever written. */
  datatype State = State(
    files: seq<seq<Line>>,
    bytes: nat,
    historyBytes: nat,
    sequence: nat,
    nextMarker: nat,
    history: seq<Line>,
    bundles: seq<Bundle>,
    ended: seq<Bundle>,
    kept: set<nat>,
    all: seq<Line>)

  function NewJournal(): State {
    State([[], [], [], []], 0, 0, 0, 0, [], [], [], {}, [])
  }

  // ---------------------------------------------------------------- the operations

  function Rotated(files: seq<seq<Line>>): seq<seq<Line>>
    requires |files| == 4
  {
    [[], files[0], files[1], files[2]]
  }

  predicate TooOldOrBig(lines: seq<Line>, bytes: nat, now: nat)
    requires lines != []
  {
    now - lines[0].at > HISTORY_MS || bytes > HISTORY_LIMIT
  }

  function Trim(lines: seq<Line>, bytes: nat, now: nat): (r: (seq<Line>, nat))
    requires bytes == Weight(lines)
    ensures r.1 == Weight(r.0) && |r.0| <= |lines|
    decreases |lines|
  {
    if lines == [] || !TooOldOrBig(lines, bytes, now) then (lines, bytes)
    else
      DropFirst(lines);
      Trim(lines[1..], bytes - lines[0].size, now)
  }

  lemma {:induction false} DropFirst(lines: seq<Line>)
    requires lines != []
    ensures Weight(lines) == lines[0].size + Weight(lines[1..])
    decreases |lines|
  {
    if |lines| > 1 {
      var n := |lines| - 1;
      DropFirst(lines[..n]);
      assert lines[1..][..n - 1] == lines[..n][1..];
    }
  }

  predicate Ends(b: Bundle, line: Line) {
    line.at > b.until || b.bytes + line.size > BUNDLE_LIMIT
  }

  function Fed(b: Bundle, line: Line): Bundle {
    b.(bytes := b.bytes + line.size, body := b.body + [line])
  }

  /** The bundles a line goes on to, and those it ends; any of them may be ended. */
  function Feed(bundles: seq<Bundle>, line: Line): seq<Bundle> {
    if bundles == [] then []
    else if Ends(bundles[0], line) then Feed(bundles[1..], line)
    else [Fed(bundles[0], line)] + Feed(bundles[1..], line)
  }

  function EndedBy(bundles: seq<Bundle>, line: Line): seq<Bundle> {
    if bundles == [] then []
    else if Ends(bundles[0], line) then [bundles[0]] + EndedBy(bundles[1..], line)
    else EndedBy(bundles[1..], line)
  }

  predicate Countable(j: State) {
    |j.files| == 4 && j.historyBytes == Weight(j.history) && |j.history| <= j.sequence
  }

  lemma AddLast(lines: seq<Line>, line: Line)
    ensures Weight(lines + [line]) == Weight(lines) + line.size
  {
    assert (lines + [line])[..|lines|] == lines;
  }

  function Written(j: State, size: nat, now: nat): (r: State)
    requires Countable(j)
    ensures Countable(r)
  {
    var line := Line(j.sequence + 1, size, now);
    var rotate := j.bytes + size > FILE_LIMIT;
    var files := if rotate then Rotated(j.files) else j.files;
    AddLast(j.history, line);
    var (history, historyBytes) := Trim(j.history + [line], j.historyBytes + size, now);
    j.(files := files[0 := files[0] + [line]],
       bytes := (if rotate then 0 else j.bytes) + size,
       sequence := j.sequence + 1,
       history := history, historyBytes := historyBytes,
       bundles := Feed(j.bundles, line), ended := j.ended + EndedBy(j.bundles, line),
       all := j.all + [line])
  }

  /** The oldest bundle makes room. */
  function MadeRoom(j: State): State {
    if |j.bundles| >= MAX_BUNDLES then j.(bundles := j.bundles[1..], ended := j.ended + [j.bundles[0]]) else j
  }

  /** What one call does; a Mark names how its file operations answer. */
  datatype Op =
    | Write(size: nat, now: nat)
    | Mark(created: bool, removed: bool, errorSize: nat, errorAt: nat, size: nat, now: nat, later: nat)
    | Finish(size: nat, now: nat)

  function Bumped(j: State): State {
    j.(nextMarker := j.nextMarker + 1)
  }

  /** The file of the marker 20 back is deleted; if that fails, a line says so. */
  function Retained(j: State, removed: bool, errorSize: nat, errorAt: nat): (r: State)
    requires Countable(j)
    ensures Countable(r)
  {
    if j.nextMarker <= MAX_BUNDLES then j
    else if removed then j.(kept := j.kept - {j.nextMarker - MAX_BUNDLES})
    else Written(j, errorSize, errorAt)
  }

  /** Everything Mark does before it copies the history. */
  function AtCopy(j: State, op: Op): (r: State)
    requires Countable(j) && op.Mark?
    ensures Countable(r)
  {
    Retained(MadeRoom(Bumped(j)), op.removed, op.errorSize, op.errorAt)
  }

  /** The new bundle starts with the whole history. */
  function NewBundle(j: State, now: nat): Bundle
    requires Countable(j)
  {
    Bundle(j.nextMarker, now + POST_MS, Weight(j.history), j.sequence - |j.history|, j.history)
  }

  function Opened(j: State, created: bool, now: nat): (r: State)
    requires Countable(j)
    ensures Countable(r)
  {
    if created then j.(bundles := j.bundles + [NewBundle(j, now)], kept := j.kept + {j.nextMarker}) else j
  }

  function Marked(j: State, op: Op): (r: State)
    requires Countable(j) && op.Mark?
    ensures Countable(r)
  {
    Written(Opened(AtCopy(j, op), op.created, op.now), op.size, op.later)
  }

  function Finished(j: State, size: nat, now: nat): (r: State)
    requires Countable(j)
    ensures Countable(r)
  {
    var j := Written(j, size, now);
    j.(ended := j.ended + j.bundles, bundles := [])
  }

  // ---------------------------------------------------------------- the invariants

  predicate Clocked(j: State, clock: nat) {
    && (forall i :: 0 <= i < |j.all| ==> j.all[i].at <= clock)
    && (forall i, k :: 0 <= i <= k < |j.all| ==> j.all[i].at <= j.all[k].at)
  }

  /** Suffixes of what was written, identified by their length. */
  predicate IsSuffix(lines: seq<Line>, all: seq<Line>) {
    |lines| <= |all| && lines == all[|all| - |lines|..]
  }

  predicate WithinLimits(lines: seq<Line>, now: nat) {
    lines == [] || (now - lines[0].at <= 120000 && Weight(lines) <= 8388608)
  }

  /** The longest suffix of everything written that is within the limits, and its weight. */
  predicate WindowOk(history: seq<Line>, bytes: nat, all: seq<Line>, clock: nat) {
    && bytes == Weight(history) <= 8388608
    && IsSuffix(history, all)
    && forall i :: 0 <= i < |all| - |history| ==> !WithinLimits(all[i..], clock)
  }

  predicate HistoryOk(j: State, clock: nat) {
    WindowOk(j.history, j.historyBytes, j.all, clock)
  }

  predicate NumberedOk(j: State) {
    |j.all| == j.sequence && forall i :: 0 <= i < |j.all| ==> j.all[i].number == i + 1
  }

  /** The rotated files in order are a suffix of everything written. */
  predicate FilesOk(j: State) {
    && |j.files| == 4
    && IsSuffix(j.files[3] + j.files[2] + j.files[1] + j.files[0], j.all)
    && j.bytes == Weight(j.files[0])
    && (j.bytes <= 33554432 || |j.files[0]| == 1)
  }

  /** One open bundle: everything written since its first line, and nothing else. */
  predicate BundleOk(b: Bundle, j: State) {
    && b.start <= |j.all| && b.body == j.all[b.start..] && |j.history| <= |b.body|
    && b.bytes == Weight(b.body) <= 16777216
    && InWindow(b)
  }

  /** Nothing in it is later than 30 s after its marker. */
  predicate InWindow(b: Bundle) {
    forall k :: 0 <= k < |b.body| ==> b.body[k].at <= b.until
  }

  predicate BundlesOk(j: State) {
    forall i :: 0 <= i < |j.bundles| ==> BundleOk(j.bundles[i], j)
  }

  /** Newer bundles end later and are smaller. */
  predicate Ordered(bundles: seq<Bundle>) {
    forall i, k :: 0 <= i < k < |bundles| ==>
      bundles[i].until <= bundles[k].until && bundles[k].bytes <= bundles[i].bytes
        && |bundles[k].body| <= |bundles[i].body|
  }

  /** Markers are numbered upwards, and a bundle's file exists until its marker is 20 back. */
  predicate MarkersOk(j: State, clock: nat) {
    && |j.bundles| <= 20
    && (forall i, k :: 0 <= i < k < |j.bundles| ==> j.bundles[i].id < j.bundles[k].id)
    && (forall i :: 0 <= i < |j.bundles| ==> j.bundles[i].id <= j.nextMarker && j.bundles[i].until <= clock + 30000)
    && (forall i :: 0 <= i < |j.bundles| && j.bundles[i].id + 20 > j.nextMarker ==> j.bundles[i].id in j.kept)
    && (forall i :: 0 <= i < |j.ended| ==> j.ended[i].id <= j.nextMarker)
  }

  /** An ended bundle is the run of consecutive lines from its first one, of at most 16 MiB. */
  predicate RunOk(b: Bundle, all: seq<Line>) {
    && Weight(b.body) <= 16777216 && InWindow(b)
    && b.start + |b.body| <= |all| && b.body == all[b.start..b.start + |b.body|]
  }

  predicate EndedOk(j: State) {
    forall i :: 0 <= i < |j.ended| ==> RunOk(j.ended[i], j.all)
  }

  predicate Inv(j: State, clock: nat) {
    && Clocked(j, clock) && HistoryOk(j, clock) && NumberedOk(j) && FilesOk(j)
    && BundlesOk(j) && Ordered(j.bundles) && MarkersOk(j, clock) && EndedOk(j)
  }

  lemma InvInitially(clock: nat)
    ensures Inv(NewJournal(), clock)
  {
  }

  // ---------------------------------------------------------------- sums and suffixes

  lemma {:induction false} SplitWeight(lines: seq<Line>, k: nat)
    requires k <= |lines|
    ensures Weight(lines) == Weight(lines[..k]) + Weight(lines[k..])
    decreases |lines|
  {
    if k < |lines| {
      var n := |lines| - 1;
      SplitWeight(lines[..n], k);
      assert lines[..n][..k] == lines[..k] && lines[..n][k..] == lines[k..][..n - k];
    } else {
      assert lines[..k] == lines && lines[k..] == [];
    }
  }

  lemma LongerIsHeavier(all: seq<Line>, i: nat, k: nat)
    requires i <= k <= |all|
    ensures Weight(all[k..]) <= Weight(all[i..])
  {
    SplitWeight(all[i..], k - i);
    assert all[i..][k - i..] == all[k..];
  }

  lemma SuffixExtended(lines: seq<Line>, all: seq<Line>, line: Line)
    requires IsSuffix(lines, all)
    ensures IsSuffix(lines + [line], all + [line])
  {
  }

  // ---------------------------------------------------------------- the history window

  /** Trimming a suffix leaves the longest suffix within the limits. */
  lemma {:induction false} TrimIsMaximal(lines: seq<Line>, all: seq<Line>, now: nat)
    requires IsSuffix(lines, all)
    requires forall i :: 0 <= i < |all| - |lines| ==> !WithinLimits(all[i..], now)
    ensures
      var (history, bytes) := Trim(lines, Weight(lines), now);
      && IsSuffix(history, all) && bytes == Weight(history) <= 8388608 && |history| <= |lines|
      && WithinLimits(history, now)
      && forall i :: 0 <= i < |all| - |history| ==> !WithinLimits(all[i..], now)
    decreases |lines|
  {
    hide Trim, Weight;
    TrimOnce(lines, now);
    if lines != [] && TooOldOrBig(lines, Weight(lines), now) {
      DropKeepsSuffix(lines, all, now);
      TrimIsMaximal(lines[1..], all, now);
    }
  }

  lemma TrimOnce(lines: seq<Line>, now: nat)
    ensures
      if lines != [] && TooOldOrBig(lines, Weight(lines), now)
      then Trim(lines, Weight(lines), now) == Trim(lines[1..], Weight(lines[1..]), now)
      else Trim(lines, Weight(lines), now) == (lines, Weight(lines)) && Weight(lines) <= HISTORY_LIMIT
  {
    if lines != [] {
      DropFirst(lines);
    }
  }

  lemma DropKeepsSuffix(lines: seq<Line>, all: seq<Line>, now: nat)
    requires IsSuffix(lines, all) && lines != [] && TooOldOrBig(lines, Weight(lines), now)
    requires forall i :: 0 <= i < |all| - |lines| ==> !WithinLimits(all[i..], now)
    ensures IsSuffix(lines[1..], all)
    ensures forall i :: 0 <= i <= |all| - |lines| ==> !WithinLimits(all[i..], now)
  {
    hide Weight;
    var k := |all| - |lines|;
    assert all[k..] == lines && all[k + 1..] == lines[1..];
  }

  /** A suffix beyond the limits stays beyond them as time passes and lines arrive. */
  lemma OutStaysOut(all: seq<Line>, line: Line, i: nat, clock: nat)
    requires i < |all| && !WithinLimits(all[i..], clock) && clock <= line.at
    ensures !WithinLimits((all + [line])[i..], line.at)
  {
    assert (all + [line])[i..] == all[i..] + [line];
    AddLast(all[i..], line);
  }

  lemma HistoryKept(j: State, size: nat, now: nat, clock: nat)
    requires Countable(j) && HistoryOk(j, clock) && clock <= now
    ensures HistoryOk(Written(j, size, now), now)
    ensures |Written(j, size, now).history| <= |j.history| + 1
  {
    WindowTrimmed(j, Line(j.sequence + 1, size, now), clock);
    WrittenIs(j, size, now);
    hide Written, WindowOk, Trimmed, Weight, Feed, EndedBy, Appended;
  }

  lemma WindowTrimmed(j: State, line: Line, clock: nat)
    requires HistoryOk(j, clock) && clock <= line.at
    ensures WindowOk(Trimmed(j.history, line).0, Trimmed(j.history, line).1, j.all + [line], line.at)
    ensures |Trimmed(j.history, line).0| <= |j.history| + 1
  {
    SuffixExtended(j.history, j.all, line);
    OutsideStaysOutside(j, line, clock);
    hide Trim, WithinLimits, Weight, IsSuffix;
    TrimIsMaximal(j.history + [line], j.all + [line], line.at);
  }

  lemma OutsideStaysOutside(j: State, line: Line, clock: nat)
    requires HistoryOk(j, clock) && clock <= line.at
    ensures forall i :: 0 <= i < |j.all| - |j.history| ==> !WithinLimits((j.all + [line])[i..], line.at)
  {
    hide WithinLimits, Weight, IsSuffix;
    forall i | 0 <= i < |j.all| - |j.history| ensures !WithinLimits((j.all + [line])[i..], line.at) {
      OutStaysOut(j.all, line, i, clock);
    }
  }

  // ---------------------------------------------------------------- the rotated files

  lemma FilesKept(j: State, size: nat, now: nat)
    requires Countable(j) && FilesOk(j)
    ensures FilesOk(Written(j, size, now))
  {
    WrittenIs(j, size, now);
    FilesAppended(j, Line(j.sequence + 1, size, now));
    hide Written, Trimmed, Weight, Feed, EndedBy, Appended, IsSuffix;
  }

  lemma FilesAppended(j: State, line: Line)
    requires FilesOk(j)
    ensures
      var (f, bytes) := Appended(j.files, j.bytes, line);
      && |f| == 4 && IsSuffix(f[3] + f[2] + f[1] + f[0], j.all + [line]) && bytes == Weight(f[0])
      && (bytes <= FILE_LIMIT || |f[0]| == 1)
  {
    var f := j.files;
    var rest := f[2] + f[1] + f[0];
    RotatedSuffix(f[3], rest, j.all, line);
    SuffixExtended(f[3] + f[2] + f[1] + f[0], j.all, line);
    AddLast(f[0], line);
    AddLast([], line);
    assert f[3] + f[2] + f[1] + f[0] == f[3] + rest;
    assert rest + [line] == f[2] + f[1] + f[0] + ([] + [line]);
    assert f[3] + f[2] + f[1] + (f[0] + [line]) == f[3] + f[2] + f[1] + f[0] + [line];
    hide Weight, IsSuffix;
  }

  lemma RotatedSuffix(oldest: seq<Line>, rest: seq<Line>, all: seq<Line>, line: Line)
    requires IsSuffix(oldest + rest, all)
    ensures IsSuffix(rest + [line], all + [line])
  {
    assert rest == (oldest + rest)[|oldest|..];
    assert IsSuffix(rest, all);
    SuffixExtended(rest, all, line);
  }

  // ---------------------------------------------------------------- the bundles

  function FedAll(bundles: seq<Bundle>, line: Line): (r: seq<Bundle>)
    ensures |r| == |bundles| && forall i :: 0 <= i < |r| ==> r[i] == Fed(bundles[i], line)
  {
    if bundles == [] then [] else [Fed(bundles[0], line)] + FedAll(bundles[1..], line)
  }

  /** A line ends only a prefix of the open bundles and goes to all the others. */
  lemma {:induction false} OnlyAPrefixEnds(bundles: seq<Bundle>, line: Line) returns (c: nat)
    requires Ordered(bundles)
    ensures c <= |bundles| && (forall i :: 0 <= i < |bundles| ==> (Ends(bundles[i], line) <==> i < c))
    ensures EndedBy(bundles, line) == bundles[..c] && Feed(bundles, line) == FedAll(bundles[c..], line)
    decreases |bundles|
  {
    if bundles == [] {
      c := 0;
    } else {
      hide Ends, Fed;
      var rest := OnlyAPrefixEnds(bundles[1..], line);
      assert forall i :: 0 < i < |bundles| ==> bundles[i] == bundles[1..][i - 1];
      if Ends(bundles[0], line) {
        c := 1 + rest;
        assert bundles[..c] == [bundles[0]] + bundles[1..][..rest] && bundles[c..] == bundles[1..][rest..];
      } else {
        c := 0;
        assert rest == 0;
        assert bundles[1..][..0] == [] && bundles[1..][0..] == bundles[1..] && bundles[0..] == bundles;
      }
    }
  }

  /** Feed and EndedBy, one bundle at a time. */
  lemma FeedHead(bundles: seq<Bundle>, line: Line)
    requires bundles != []
    ensures Feed(bundles, line) ==
      (if Ends(bundles[0], line) then [] else [Fed(bundles[0], line)]) + Feed(bundles[1..], line)
    ensures EndedBy(bundles, line) ==
      (if Ends(bundles[0], line) then [bundles[0]] else []) + EndedBy(bundles[1..], line)
  {
    hide Fed, Ends;
  }

  /** A line goes to exactly the bundles whose window still runs and which have room for it; the
      others end with what they had. */
  predicate LineGoes(bundles: seq<Bundle>, line: Line, fed: seq<Bundle>, ended: seq<Bundle>) {
    && |fed| + |ended| == |bundles|
    && (forall b :: b in ended ==> b in bundles)
    && forall b :: b in bundles ==>
         if line.at > b.until || b.bytes + line.size > 16777216 then b in ended
         else b.(bytes := b.bytes + line.size, body := b.body + [line]) in fed
  }

  lemma {:induction false} FeedSorts(bundles: seq<Bundle>, line: Line)
    ensures LineGoes(bundles, line, Feed(bundles, line), EndedBy(bundles, line))
  {
    if bundles != [] {
      FeedSorts(bundles[1..], line);
      assert bundles == [bundles[0]] + bundles[1..];
    }
  }

  lemma FedBundleOk(b: Bundle, j: State, j': State, line: Line)
    requires BundleOk(b, j) && !Ends(b, line) && j'.all == j.all + [line] && |j'.history| <= |j.history| + 1
    ensures BundleOk(Fed(b, line), j')
  {
    assert (j.all + [line])[b.start..] == j.all[b.start..] + [line];
    AddLast(b.body, line);
    hide Weight;
  }

  lemma EndedRun(b: Bundle, all: seq<Line>, line: Line)
    requires RunOk(b, all)
    ensures RunOk(b, all + [line])
  {
    assert (all + [line])[b.start..b.start + |b.body|] == all[b.start..b.start + |b.body|];
  }

  lemma OpenIsRun(b: Bundle, j: State)
    requires BundleOk(b, j)
    ensures RunOk(b, j.all)
  {
    assert j.all[b.start..] == j.all[b.start..|j.all|];
  }

  lemma FedStaysOrdered(bundles: seq<Bundle>, c: nat, line: Line)
    requires Ordered(bundles) && c <= |bundles|
    ensures Ordered(FedAll(bundles[c..], line))
  {
    hide Weight;
  }

  /** What a write does to the bundles, given what it does to the history. */
  predicate Logs(j: State, j': State, line: Line) {
    && j'.all == j.all + [line] && |j'.history| <= |j.history| + 1 && j'.nextMarker == j.nextMarker && j'.kept == j.kept
    && j'.bundles == Feed(j.bundles, line) && j'.ended == j.ended + EndedBy(j.bundles, line)
  }

  lemma MarkersKept(j: State, j': State, line: Line, clock: nat)
    requires Ordered(j.bundles) && MarkersOk(j, clock) && Logs(j, j', line) && clock <= line.at
    ensures MarkersOk(j', line.at)
  {
    hide Ends, Feed, EndedBy, Ordered;
    var c := OnlyAPrefixEnds(j.bundles, line);
    OpenMarkersKept(j, c, line, clock);
  }

  lemma OpenMarkersKept(j: State, c: nat, line: Line, clock: nat)
    requires MarkersOk(j, clock) && c <= |j.bundles| && clock <= line.at
    ensures
      var r := FedAll(j.bundles[c..], line);
      && |r| <= MAX_BUNDLES
      && (forall i, k :: 0 <= i < k < |r| ==> r[i].id < r[k].id)
      && (forall i :: 0 <= i < |r| ==> r[i].id <= j.nextMarker && r[i].until <= line.at + POST_MS)
      && (forall i :: 0 <= i < |r| && r[i].id + MAX_BUNDLES > j.nextMarker ==> r[i].id in j.kept)
  {
    var r := FedAll(j.bundles[c..], line);
    assert forall i :: 0 <= i < |r| ==> r[i].id == j.bundles[c + i].id && r[i].until == j.bundles[c + i].until;
    hide FedAll;
  }

  lemma BundlesKept(j: State, j': State, line: Line, clock: nat)
    requires BundlesOk(j) && Ordered(j.bundles) && MarkersOk(j, clock) && Logs(j, j', line) && clock <= line.at
    ensures BundlesOk(j') && Ordered(j'.bundles) && MarkersOk(j', line.at)
  {
    MarkersKept(j, j', line, clock);
    var c := OnlyAPrefixEnds(j.bundles, line);
    FedStaysOrdered(j.bundles, c, line);
    forall i | 0 <= i < |j'.bundles| ensures BundleOk(j'.bundles[i], j') {
      assert !Ends(j.bundles[c + i], line) && BundleOk(j.bundles[c + i], j);
      FedBundleOk(j.bundles[c + i], j, j', line);
    }
    hide BundleOk, Ends, Feed, EndedBy, Ordered, MarkersOk;
  }

  lemma EndedKept(j: State, j': State, line: Line)
    requires BundlesOk(j) && Ordered(j.bundles) && EndedOk(j) && Logs(j, j', line)
    ensures EndedOk(j')
  {
    var c := OnlyAPrefixEnds(j.bundles, line);
    forall i | 0 <= i < |j'.ended| ensures RunOk(j'.ended[i], j'.all) {
      if i < |j.ended| {
        EndedRun(j.ended[i], j.all, line);
      } else {
        var b := j.bundles[i - |j.ended|];
        OpenIsRun(b, j);
        EndedRun(b, j.all, line);
      }
    }
    hide RunOk, BundleOk, Ends, Feed, EndedBy, Ordered;
  }

  lemma ClockKept(j: State, size: nat, now: nat, clock: nat)
    requires Countable(j) && Clocked(j, clock) && NumberedOk(j) && clock <= now
    ensures Clocked(Written(j, size, now), now) && NumberedOk(Written(j, size, now))
  {
    hide Trim, Weight, Feed, EndedBy;
  }

  /** Write keeps everything. */
  lemma WriteKeeps(j: State, size: nat, now: nat, clock: nat)
    requires Inv(j, clock) && clock <= now
    ensures Countable(j) && Inv(Written(j, size, now), now)
  {
    var j' := Written(j, size, now);
    var line := Line(j.sequence + 1, size, now);
    ClockKept(j, size, now, clock);
    HistoryKept(j, size, now, clock);
    FilesKept(j, size, now);
    WriteLogs(j, size, now);
    hide Written, Clocked, HistoryOk, NumberedOk, FilesOk, BundlesOk, Ordered, MarkersOk, EndedOk, Logs;
    BundlesKept(j, j', line, clock);
    EndedKept(j, j', line);
  }

  lemma WriteLogs(j: State, size: nat, now: nat)
    requires Countable(j) && |Written(j, size, now).history| <= |j.history| + 1
    ensures Logs(j, Written(j, size, now), Line(j.sequence + 1, size, now))
  {
    hide Trim, Feed, EndedBy, Weight;
  }

  // ---------------------------------------------------------------- marking

  /** Time passing alone changes nothing. */
  lemma Later(j: State, clock: nat, now: nat)
    requires Inv(j, clock) && clock <= now
    ensures Inv(j, now)
  {
    hide FilesOk, BundlesOk, Ordered, EndedOk, NumberedOk, Weight, IsSuffix;
  }

  /** Space for one more open bundle, whose number nobody has yet. */
  predicate Room(j: State) {
    && |j.bundles| < MAX_BUNDLES
    && (forall i :: 0 <= i < |j.bundles| ==> j.bundles[i].id < j.nextMarker)
    && (forall i :: 0 <= i < |j.ended| ==> j.ended[i].id < j.nextMarker)
  }

  lemma RoomMade(j: State, now: nat)
    requires Inv(j, now)
    ensures Inv(MadeRoom(Bumped(j)), now) && Room(MadeRoom(Bumped(j)))
  {
    hide BundlesOk, EndedOk, Ordered, Clocked, HistoryOk, NumberedOk, FilesOk, Weight;
    BumpedLines(j);
    SameRest(j, MadeRoom(Bumped(j)));
    if |j.bundles| >= MAX_BUNDLES {
      FirstEnded(Bumped(j));
    } else {
    }
  }

  /** What does not look at the bundles. */
  lemma SameRest(j: State, r: State)
    requires r == j.(bundles := r.bundles, ended := r.ended, nextMarker := r.nextMarker, kept := r.kept)
    ensures NumberedOk(j) ==> NumberedOk(r)
    ensures FilesOk(j) ==> FilesOk(r)
    ensures forall clock :: (Clocked(j, clock) ==> Clocked(r, clock)) && (HistoryOk(j, clock) ==> HistoryOk(r, clock))
  {
    hide Weight, IsSuffix, WindowOk;
  }

  lemma BumpedLines(j: State)
    ensures BundlesOk(j) ==> BundlesOk(Bumped(j))
    ensures EndedOk(j) ==> EndedOk(Bumped(j))
  {
    hide Weight, IsSuffix, RunOk, WindowOk;
  }

  lemma FirstEnded(j: State)
    requires BundlesOk(j) && Ordered(j.bundles) && EndedOk(j) && j.bundles != []
    ensures
      var r := j.(bundles := j.bundles[1..], ended := j.ended + [j.bundles[0]]);
      BundlesOk(r) && Ordered(r.bundles) && EndedOk(r)
  {
    OpenIsRun(j.bundles[0], j);
    assert forall i :: 0 <= i < |j.bundles| ==> BundleOk(j.bundles[i], j);
    hide RunOk, Weight, IsSuffix;
  }

  lemma RetainedKeeps(j: State, removed: bool, errorSize: nat, errorAt: nat, clock: nat)
    requires Inv(j, clock) && Room(j) && clock <= errorAt
    ensures Countable(j) && Inv(Retained(j, removed, errorSize, errorAt), errorAt)
      && Room(Retained(j, removed, errorSize, errorAt))
    ensures Retained(j, removed, errorSize, errorAt).nextMarker == j.nextMarker
  {
    CountableOf(j, clock);
    Later(j, clock, errorAt);
    OrderedOf(j, clock);
    hide Inv, Written, Countable, Room, Ordered;
    if j.nextMarker <= MAX_BUNDLES {
    } else if removed {
      FileGone(j, errorAt);
    } else {
      WriteKeeps(j, errorSize, errorAt, clock);
      RoomWritten(j, errorSize, errorAt);
    }
  }

  lemma OrderedOf(j: State, clock: nat)
    requires Inv(j, clock)
    ensures Ordered(j.bundles)
  {
    hide Ordered, Clocked, HistoryOk, NumberedOk, FilesOk, BundlesOk, MarkersOk, EndedOk;
  }

  lemma FileGone(j: State, now: nat)
    requires Inv(j, now) && Room(j) && j.nextMarker > MAX_BUNDLES
    ensures
      var r := j.(kept := j.kept - {j.nextMarker - MAX_BUNDLES});
      Inv(r, now) && Room(r)
  {
    var r := j.(kept := j.kept - {j.nextMarker - MAX_BUNDLES});
    SameLines(j, r);
    SameRest(j, r);
    hide Clocked, HistoryOk, NumberedOk, FilesOk, BundlesOk, EndedOk, Ordered;
  }

  /** What only looks at the lines. */
  lemma SameLines(j: State, r: State)
    requires r == j.(kept := r.kept)
    ensures BundlesOk(j) ==> BundlesOk(r)
    ensures EndedOk(j) ==> EndedOk(r)
  {
    hide Weight, IsSuffix, RunOk, WindowOk;
  }

  lemma RoomWritten(j: State, size: nat, now: nat)
    requires Countable(j) && Room(j) && Ordered(j.bundles)
    ensures Room(Written(j, size, now)) && Written(j, size, now).nextMarker == j.nextMarker
    ensures Written(j, size, now).kept == j.kept
  {
    var line := Line(j.sequence + 1, size, now);
    WrittenIs(j, size, now);
    var c := OnlyAPrefixEnds(j.bundles, line);
    hide Written, Feed, EndedBy, Ordered, Ends, Trimmed, Appended;
  }

  lemma NewBundleOk(j: State, now: nat)
    requires Countable(j) && HistoryOk(j, now) && NumberedOk(j) && Clocked(j, now)
    ensures BundleOk(NewBundle(j, now), j)
  {
    hide Weight, WithinLimits;
  }

  lemma NewBundleOrdered(j: State, now: nat)
    requires Countable(j) && BundlesOk(j) && Ordered(j.bundles) && IsSuffix(j.history, j.all)
    requires forall i :: 0 <= i < |j.bundles| ==> j.bundles[i].until <= now + POST_MS
    ensures Ordered(j.bundles + [NewBundle(j, now)])
  {
    forall i | 0 <= i < |j.bundles| ensures Weight(j.history) <= j.bundles[i].bytes
      && |j.history| <= |j.bundles[i].body| {
      assert BundleOk(j.bundles[i], j);
      LongerIsHeavier(j.all, j.bundles[i].start, |j.all| - |j.history|);
    }
    hide Weight, BundlesOk;
  }

  lemma OpenedKeeps(j: State, created: bool, now: nat)
    requires Inv(j, now) && Room(j) && Countable(j)
    ensures Inv(Opened(j, created, now), now)
  {
    var b := NewBundle(j, now);
    NewBundleOk(j, now);
    NewBundleOrdered(j, now);
    OneMoreBundle(j, b);
    OpenedLines(j, b);
    SameRest(j, Opened(j, created, now));
    hide Clocked, HistoryOk, NumberedOk, FilesOk, BundleOk, EndedOk, Ordered, BundlesOk, Weight;
    OpenedMarkers(j, created, now);
    hide MarkersOk, Room;
    if created {
    } else {
    }
  }

  lemma OpenedMarkers(j: State, created: bool, now: nat)
    requires MarkersOk(j, now) && Room(j) && Countable(j)
    ensures MarkersOk(Opened(j, created, now), now)
  {
    hide Weight;
    if created {
    } else {
    }
  }

  lemma OpenedLines(j: State, b: Bundle)
    ensures
      var o := j.(bundles := j.bundles + [b], kept := j.kept + {j.nextMarker});
      (EndedOk(j) ==> EndedOk(o)) && (BundlesOk(j.(bundles := j.bundles + [b])) ==> BundlesOk(o))
  {
    hide Weight, IsSuffix, RunOk, WindowOk;
  }

  lemma OneMoreBundle(j: State, b: Bundle)
    requires BundlesOk(j) && BundleOk(b, j)
    ensures BundlesOk(j.(bundles := j.bundles + [b]))
  {
    hide Weight, IsSuffix, RunOk;
  }

  lemma CopyReady(j: State, op: Op, clock: nat)
    requires Inv(j, clock) && op.Mark? && clock <= op.errorAt
    ensures Countable(j) && Inv(AtCopy(j, op), op.errorAt) && Room(AtCopy(j, op))
    ensures AtCopy(j, op).nextMarker == j.nextMarker + 1
  {
    CountableOf(j, clock);
    RoomMade(j, clock);
    RetainedKeeps(MadeRoom(Bumped(j)), op.removed, op.errorSize, op.errorAt, clock);
    hide Inv, Room, Retained, Countable;
  }

  /** Mark keeps everything, however its file operations answer. */
  lemma MarkKeeps(j: State, op: Op, clock: nat)
    requires Inv(j, clock) && op.Mark? && clock <= op.errorAt <= op.now <= op.later
    ensures Countable(j) && Inv(Marked(j, op), op.later)
  {
    CopyReady(j, op, clock);
    var r := AtCopy(j, op);
    Later(r, op.errorAt, op.now);
    OpenedKeeps(r, op.created, op.now);
    WriteKeeps(Opened(r, op.created, op.now), op.size, op.later, op.now);
    hide Inv, Room, AtCopy, Opened, Written, Countable;
  }

  lemma CountableOf(j: State, clock: nat)
    requires Inv(j, clock)
    ensures Countable(j)
  {
    hide Weight, WithinLimits;
  }

  lemma FinishKeeps(j: State, size: nat, now: nat, clock: nat)
    requires Inv(j, clock) && clock <= now
    ensures Countable(j) && Inv(Finished(j, size, now), now) && Finished(j, size, now).bundles == []
  {
    WriteKeeps(j, size, now, clock);
    var w := Written(j, size, now);
    hide *;
    EndAllKeeps(w, now);
    FinishedIs(j, size, now);
  }

  lemma FinishedIs(j: State, size: nat, now: nat)
    requires Countable(j)
    ensures
      var w := Written(j, size, now);
      Finished(j, size, now) == w.(ended := w.ended + w.bundles, bundles := [])
  {
    hide Written;
  }

  lemma EndAllKeeps(w: State, now: nat)
    requires Inv(w, now)
    ensures Inv(w.(ended := w.ended + w.bundles, bundles := []), now)
  {
    forall i | 0 <= i < |w.bundles| ensures RunOk(w.bundles[i], w.all) {
      assert BundleOk(w.bundles[i], w);
      OpenIsRun(w.bundles[i], w);
    }
    hide Clocked, HistoryOk, NumberedOk, FilesOk, BundleOk, RunOk, BundlesOk, Ordered;
    assert BundlesOk(w.(ended := w.ended + w.bundles, bundles := [])) && Ordered([]) by { NothingOpen(w); }
  }

  lemma NothingOpen(w: State)
    ensures BundlesOk(w.(ended := w.ended + w.bundles, bundles := [])) && Ordered([])
  {
  }

  // ---------------------------------------------------------------- the journal itself

  function Trimmed(history: seq<Line>, line: Line): (seq<Line>, nat) {
    Trim(history + [line], Weight(history + [line]), line.at)
  }

  /** The log files after a line: rotated first if it would not fit. */
  function Appended(files: seq<seq<Line>>, bytes: nat, line: Line): (seq<seq<Line>>, nat)
    requires |files| == 4
  {
    var rotate := bytes + line.size > FILE_LIMIT;
    var before := if rotate then Rotated(files) else files;
    (before[0 := before[0] + [line]], (if rotate then 0 else bytes) + line.size)
  }

  /** The log on disk, oldest line first. */
  function OnDisk(files: seq<seq<Line>>): seq<Line>
    requires |files| == 4
  {
    files[3] + files[2] + files[1] + files[0]
  }

  /** A line goes to the end of the log; nothing else changes, except that a line which would take
      the current file over 32 MiB moves the files on, and the oldest of the four goes. */
  predicate LogGrows(files: seq<seq<Line>>, files': seq<seq<Line>>, bytes: nat, line: Line) {
    && |files| == 4 && |files'| == 4
    && if bytes + line.size > 33554432
       then files' == [[line], files[0], files[1], files[2]]
            && OnDisk(files') == files[2] + files[1] + files[0] + [line]
       else files' == [files[0] + [line], files[1], files[2], files[3]] && OnDisk(files') == OnDisk(files) + [line]
  }

  lemma LineIsAppended(files: seq<seq<Line>>, bytes: nat, line: Line)
    requires |files| == 4
    ensures LogGrows(files, Appended(files, bytes, line).0, bytes, line)
  {
    var before := if bytes + line.size > FILE_LIMIT then Rotated(files) else files;
    assert before[0 := before[0] + [line]] == [before[0] + [line], before[1], before[2], before[3]];
    if bytes + line.size > FILE_LIMIT {
      assert [] + [line] == [line];
    }
  }

  /** Write, part by part. */
  lemma WrittenIs(j: State, size: nat, now: nat)
    requires Countable(j)
    ensures
      var line := Line(j.sequence + 1, size, now);
      Written(j, size, now) ==
        j.(files := Appended(j.files, j.bytes, line).0, bytes := Appended(j.files, j.bytes, line).1,
           sequence := j.sequence + 1,
           history := Trimmed(j.history, line).0, historyBytes := Trimmed(j.history, line).1,
           bundles := Feed(j.bundles, line), ended := j.ended + EndedBy(j.bundles, line), all := j.all + [line])
  {
    AddLast(j.history, Line(j.sequence + 1, size, now));
    hide Trim, Feed, EndedBy, Weight;
  }

  /** A marker writes its own line, and before it one about the old bundle's file, exactly if there
      is one that could not be removed. */
  predicate MarkWrites(j: State, j': State, removed: bool, errorSize: nat, errorAt: nat, size: nat, later: nat) {
    var n := j.sequence;
    var error := if j.nextMarker >= 20 && !removed then [Line(n + 1, errorSize, errorAt)] else [];
    j'.all == j.all + error + [Line(n + |error| + 1, size, later)] && j'.nextMarker == j.nextMarker + 1
  }

  lemma MarkedLines(j: State, op: Op)
    requires Countable(j) && op.Mark?
    ensures MarkWrites(j, Marked(j, op), op.removed, op.errorSize, op.errorAt, op.size, op.later)
  {
    hide Written, Feed, EndedBy, Weight, NewBundle, Countable;
    var v := AtCopy(j, op);
    CopyLines(j, op);
    OpenedSame(v, op.created, op.now);
    WrittenLine(Opened(v, op.created, op.now), op.size, op.later);
    hide AtCopy, Opened;
  }

  lemma WrittenLine(j: State, size: nat, now: nat)
    requires Countable(j)
    ensures
      var w := Written(j, size, now);
      w.all == j.all + [Line(j.sequence + 1, size, now)] && w.sequence == j.sequence + 1 && w.nextMarker == j.nextMarker
  {
    WrittenIs(j, size, now);
    hide Written, Trimmed, Appended, Feed, EndedBy, Weight;
  }

  lemma CopyLines(j: State, op: Op)
    requires Countable(j) && op.Mark?
    ensures
      var v := AtCopy(j, op);
      var error := if j.nextMarker >= 20 && !op.removed then [Line(j.sequence + 1, op.errorSize, op.errorAt)] else [];
      v.all == j.all + error && v.sequence == j.sequence + |error| && v.nextMarker == j.nextMarker + 1
  {
    hide Written, Weight;
    WrittenLine(MadeRoom(Bumped(j)), op.errorSize, op.errorAt);
  }

  lemma OpenedSame(j: State, created: bool, now: nat)
    requires Countable(j)
    ensures
      var o := Opened(j, created, now);
      o.all == j.all && o.sequence == j.sequence && o.nextMarker == j.nextMarker
  {
    hide NewBundle, Weight;
  }

  /** Right after a line was written the history is within both limits, whatever it was before. */
  lemma WrittenInWindow(j: State, size: nat, now: nat)
    requires Countable(j)
    ensures WithinLimits(Written(j, size, now).history, now)
  {
    var lines := j.history + [Line(j.sequence + 1, size, now)];
    AddLast(j.history, Line(j.sequence + 1, size, now));
    TrimIsMaximal(lines, lines, now);
    WrittenIs(j, size, now);
    hide Written, Appended, Feed, EndedBy, Weight, Trim, WithinLimits;
  }

  class JournalFile {
    var files: array<seq<Line>>
    var bytes: nat
    var historyBytes: nat
    var sequence: nat
    var nextMarker: nat
    var history: seq<Line>
    var bundles: seq<Bundle>
    var kept: set<nat>
    ghost var ended: seq<Bundle>
    ghost var all: seq<Line>

    constructor ()
      ensures fresh(files) && Countable(View()) && View() == NewJournal()
    {
      files := new seq<Line>[4](_ => []);
      bytes, historyBytes, sequence, nextMarker, history, bundles, kept := 0, 0, 0, 0, [], [], {};
      ended, all := [], [];
      new;
      assert files[..] == [[], [], [], []];
    }

    ghost function View(): State
      reads this, files
    {
      State(files[..], bytes, historyBytes, sequence, nextMarker, history, bundles, ended, kept, all)
    }

    /** The renames of a rotation, oldest first. */
    method Rotate()
      requires files.Length == 4
      modifies files
      ensures files[..] == Rotated(old(files[..]))
    {
      var i := 3;
      while i > 0
        invariant 0 <= i <= 3
        invariant forall k :: 0 <= k <= i ==> files[k] == old(files[k])
        invariant forall k :: i < k <= 3 ==> files[k] == old(files[k - 1])
      {
        files[i] := files[i - 1];
        i := i - 1;
      }
      files[0] := [];
    }

    method TrimHistory(now: nat)
      requires historyBytes == Weight(history)
      modifies `history, `historyBytes
      ensures (history, historyBytes) == Trim(old(history), old(historyBytes), now)
    {
      while history != [] && (now - history[0].at > HISTORY_MS || historyBytes > HISTORY_LIMIT)
        invariant historyBytes == Weight(history)
        invariant Trim(history, historyBytes, now) == Trim(old(history), old(historyBytes), now)
        decreases |history|
      {
        DropFirst(history);
        historyBytes := historyBytes - history[0].size;
        history := history[1..];
      }
    }

    /** The loop over open bundles: each takes the line or is ended and erased. */
    method FeedBundles(line: Line)
      modifies `bundles, `ended
      ensures bundles == Feed(old(bundles), line) && ended == old(ended) + EndedBy(old(bundles), line)
      ensures |old(ended)| <= |ended| && LineGoes(old(bundles), line, bundles, ended[|old(ended)|..])
    {
      FeedSorts(bundles, line);
      hide *;
      FeedOrEnd(line);
      assert ended[|old(ended)|..] == EndedBy(old(bundles), line);
    }

    method FeedOrEnd(line: Line)
      modifies `bundles, `ended
      ensures bundles == Feed(old(bundles), line) && ended == old(ended) + EndedBy(old(bundles), line)
    {
      hide Fed;
      var i := 0;
      ghost var rest := bundles;
      while i < |bundles|
        invariant i <= |bundles| && bundles[i..] == rest
        invariant bundles[..i] + Feed(rest, line) == Feed(old(bundles), line)
        invariant ended + EndedBy(rest, line) == old(ended) + EndedBy(old(bundles), line)
        decreases |bundles| - i
      {
        assert rest[0] == bundles[i] && rest[1..] == bundles[i + 1..];
        FeedHead(rest, line);
        rest := rest[1..];
        if line.at > bundles[i].until || bundles[i].bytes + line.size > BUNDLE_LIMIT {
          ended := ended + [bundles[i]];
          bundles := bundles[..i] + bundles[i + 1..];
        } else {
          bundles := bundles[i := Fed(bundles[i], line)];
          i := i + 1;
        }
      }
    }

    method Write(size: nat, now: nat)
      requires Countable(View()) && files.Length == 4
      modifies files, `bytes, `sequence, `history, `historyBytes, `bundles, `ended, `all
      ensures View() == Written(old(View()), size, now)
      ensures LogGrows(old(files[..]), files[..], old(bytes), Line(old(sequence) + 1, size, now))
      ensures WithinLimits(history, now)
    {
      WrittenInWindow(View(), size, now);
      WrittenIs(View(), size, now);
      LineIsAppended(files[..], bytes, Line(sequence + 1, size, now));
      hide *;
      WriteLine(size, now);
    }

    /** The file, the history window and the open bundles, one after the other. */
    method WriteLine(size: nat, now: nat)
      requires Countable(View()) && files.Length == 4
      modifies files, `bytes, `sequence, `history, `historyBytes, `bundles, `ended, `all
      ensures View() == Written(old(View()), size, now)
    {
      hide Trimmed, Feed, EndedBy, Weight, Appended, Written;
      WrittenIs(View(), size, now);
      assert historyBytes == Weight(history);
      var line := Line(sequence + 1, size, now);
      AppendLine(line);
      Record(line);
    }

    /** The rest of Write: the history window, then the open bundles. */
    method Record(line: Line)
      requires historyBytes == Weight(history)
      modifies `sequence, `history, `historyBytes, `bundles, `ended, `all
      ensures sequence == old(sequence) + 1 && all == old(all) + [line]
      ensures (history, historyBytes) == Trimmed(old(history), line)
      ensures bundles == Feed(old(bundles), line) && ended == old(ended) + EndedBy(old(bundles), line)
    {
      sequence := sequence + 1;
      AddLast(history, line);
      history, historyBytes := history + [line], historyBytes + line.size;
      hide Trim, Feed, EndedBy, Weight;
      TrimHistory(line.at);
      FeedBundles(line);
      all := all + [line];
    }

    method AppendLine(line: Line)
      requires files.Length == 4
      modifies files, `bytes
      ensures (files[..], bytes) == Appended(old(files[..]), old(bytes), line)
    {
      if bytes + line.size > FILE_LIMIT {
        Rotate();
        bytes := 0;
      }
      files[0] := files[0] + [line];
      bytes := bytes + line.size;
    }

    /** Each outcome says whether the file operation it names succeeds. */
    method Mark(created: bool, removed: bool, errorSize: nat, errorAt: nat, size: nat, now: nat, later: nat)
      requires Countable(View()) && files.Length == 4
      modifies this, files
      ensures files == old(files)
      ensures View() == Marked(old(View()), Op.Mark(created, removed, errorSize, errorAt, size, now, later))
      ensures MarkWrites(old(View()), View(), removed, errorSize, errorAt, size, later)
    {
      MarkedLines(View(), Op.Mark(created, removed, errorSize, errorAt, size, now, later));
      hide Written, Weight, Countable, MarkWrites;
      MakeRoom();
      RetainFiles(removed, errorSize, errorAt);
      OpenBundle(created, now);
      Write(size, later);
    }

    method MakeRoom()
      requires Countable(View())
      modifies `nextMarker, `bundles, `ended
      ensures View() == MadeRoom(Bumped(old(View()))) && Countable(View())
    {
      nextMarker := nextMarker + 1;
      if |bundles| >= MAX_BUNDLES {
        ended := ended + [bundles[0]];
        bundles := bundles[1..];
      }
    }

    method RetainFiles(removed: bool, errorSize: nat, errorAt: nat)
      requires Countable(View()) && files.Length == 4
      modifies this, files
      ensures files == old(files) && View() == Retained(old(View()), removed, errorSize, errorAt)
    {
      hide Written, Weight, Countable;
      if nextMarker > MAX_BUNDLES {
        if removed {
          kept := kept - {nextMarker - MAX_BUNDLES};
        } else {
          Write(errorSize, errorAt);
        }
      }
    }

    method OpenBundle(created: bool, now: nat)
      requires Countable(View())
      modifies `bundles, `kept
      ensures View() == Opened(old(View()), created, now)
    {
      var b := CopyHistory(now);
      if created {
        bundles := bundles + [b];
        kept := kept + {nextMarker};
      }
    }

    method CopyHistory(now: nat) returns (b: Bundle)
      requires Countable(View())
      ensures b == NewBundle(View(), now)
    {
      var copied, body := CopyLines();
      b := Bundle(nextMarker, now + POST_MS, copied, sequence - |history|, body);
    }

    /** The loop over the history. */
    method CopyLines() returns (copied: nat, body: seq<Line>)
      ensures copied == Weight(history) && body == history
    {
      copied, body := 0, [];
      var i := 0;
      while i < |history|
        invariant i <= |history| && body == history[..i] && copied == Weight(body)
      {
        AddLast(body, history[i]);
        copied, body := copied + history[i].size, body + [history[i]];
        i := i + 1;
      }
      assert history[..i] == history;
    }

    method Finish(size: nat, now: nat)
      requires Countable(View()) && files.Length == 4
      modifies this, files
      ensures files == old(files) && View() == Finished(old(View()), size, now)
    {
      hide Written;
      Write(size, now);
      ended := ended + bundles;
      bundles := [];
    }
  }
}
