/** SettingsSave.hpp: the coalescing background saver and the shutdown drain. */
module SettingsSaver {
  import opened Wrappers
  import opened SettingsStore

  /** The worker coroutine: writing in the background, back on the UI thread after a write
      that landed, or in its last hop. */
  datatype SaveWorker =
    | Off
    | InWrite(snapshot: nat)
    | Returning(snapshot: nat, place: Place)
    | LastHop(saveFailed: bool)

  /** FlushPendingSettings: waiting for the idle signal, or what it reported. `idleAt` is how
      many snapshots had been queued when the signal came. */
  datatype Drain =
    | NotDraining
    | Draining(snapshot: nat, idleAt: Option<nat>)
    | DrainFailed
    | Reported(snapshot: nat, complete: bool)

  /** Snapshots are numbered in the order they were queued; `writes` lists those that reached
      the disk and `coroutines` counts worker coroutines alive. */
  datatype Saver = Saver(
    queued: seq<Content>,
    pending: Option<nat>,
    running: bool,
    failed: bool,
    stopping: bool,
    coroutines: nat,
    worker: SaveWorker,
    writes: seq<nat>,
    past: Past,
    drain: Drain)

  function NewSaver(past: Past): Saver {
    Saver([], None, false, false, false, 0, Off, [], past, NotDraining)
  }

  /** The worker's loop head: take the pending snapshot or leave the loop. */
  function TakeNext(s: Saver): Saver {
    if s.pending.None? then s.(worker := LastHop(false))
    else s.(pending := None, worker := InWrite(s.pending.value))
  }

  function StartWorker(s: Saver): Saver {
    TakeNext(s.(running := true, coroutines := s.coroutines + 1))
  }

  function Queued(s: Saver, content: Content): Saver {
    var s := s.(queued := s.queued + [content], pending := Some(|s.queued|), failed := false);
    if s.running then s else StartWorker(s)
  }

  /** The path last used changes only once the worker is back on the UI thread. */
  function WriteEnds(s: Saver, time: nat, weather: Weather): Saver
    requires s.worker.InWrite? && s.worker.snapshot < |s.queued|
  {
    var i := s.worker.snapshot;
    var landing := Landing(s.past.storage, weather);
    if landing.None? then s.(worker := LastHop(true))
    else s.(past := Past(Written(s.past.storage, s.queued[i], time, weather), Some(File(s.queued[i], time)), landing),
            writes := s.writes + [i], worker := Returning(i, landing.value))
  }

  function Resumed(s: Saver): Saver
    requires s.worker.Returning?
  {
    TakeNext(s.(past := s.past.(storage := s.past.storage.(active := Some(s.worker.place)))))
  }

  function Signalled(s: Saver): Drain {
    if s.drain.Draining? && s.drain.idleAt.None? then s.drain.(idleAt := Some(|s.queued|)) else s.drain
  }

  function HopEnds(s: Saver): Saver
    requires s.worker.LastHop? && s.coroutines > 0
  {
    var s := s.(failed := s.worker.saveFailed, running := false, coroutines := s.coroutines - 1, worker := Off,
                drain := Signalled(s));
    if s.pending.Some? && !s.stopping then StartWorker(s) else s
  }

  /** FlushPendingSettings runs once the application is stopping. */
  function DrainBegins(s: Saver, content: Option<Content>): Saver {
    if content.None? then s.(failed := true, drain := DrainFailed)
    else
      var s := Queued(s, content.value);
      s.(drain := Draining(|s.queued| - 1, if s.running then None else Some(|s.queued|)))
  }

  function DrainReports(s: Saver, finished: bool): Saver
    requires s.drain.Draining?
  {
    s.(drain := Reported(s.drain.snapshot, finished && !s.failed && s.pending.None?))
  }

  datatype Step =
    | Queue(content: Option<Content>)
    | EndWrite(time: nat, weather: Weather)
    | Resume
    | EndHop
    | Stop
    | BeginDrain(content: Option<Content>)
    | Report(finished: bool)

  predicate Enabled(s: Saver, e: Step) {
    match e
    case Queue(_) => true
    case EndWrite(_, _) => s.worker.InWrite? && s.worker.snapshot < |s.queued|
    case Resume => s.worker.Returning?
    case EndHop => s.worker.LastHop? && s.coroutines > 0
    case Stop => true
    case BeginDrain(_) => s.stopping && s.drain.NotDraining?
    case Report(finished) => s.drain.Draining? && (finished ==> s.drain.idleAt.Some?)
  }

  /** Queue(None) is a snapshot that could not be built. */
  function Next(s: Saver, e: Step): Saver
    requires Enabled(s, e)
  {
    match e
    case Queue(content) => if content.None? then s.(failed := true) else Queued(s, content.value)
    case EndWrite(time, weather) => WriteEnds(s, time, weather)
    case Resume => Resumed(s)
    case EndHop => HopEnds(s)
    case Stop => s.(stopping := true)
    case BeginDrain(content) => DrainBegins(s, content)
    case Report(finished) => DrainReports(s, finished)
  }

  // ---------------------------------------------------------------- what every step keeps

  /** One coroutine at most, and only the newest snapshot is ever pending. */
  predicate OneWriter(s: Saver) {
    && s.coroutines == (if s.running then 1 else 0)
    && (s.running <==> !s.worker.Off?)
    && (s.pending.Some? ==> s.queued != [] && s.pending.value == |s.queued| - 1)
    && (s.worker.InWrite? ==>
        s.worker.snapshot < |s.queued| && (s.pending.Some? ==> s.worker.snapshot < s.pending.value))
  }

  /** Snapshots reach the disk in the order they were queued. */
  predicate InOrder(s: Saver) {
    && (forall i, j :: 0 <= i < j < |s.writes| ==> s.writes[i] < s.writes[j])
    && (forall i :: 0 <= i < |s.writes| ==> s.writes[i] < |s.queued|)
    && (forall i :: 0 <= i < |s.writes| ==> s.worker.InWrite? ==> s.writes[i] < s.worker.snapshot)
    && (forall i :: 0 <= i < |s.writes| ==> s.pending.Some? ==> s.writes[i] < s.pending.value)
  }

  /** The last write is the file in the place it landed in. */
  predicate OnDisk(s: Saver) {
    && Placed(s.past)
    && (s.writes != [] ==> s.writes[|s.writes| - 1] < |s.queued|
                           && s.past.last.Some? && s.past.last.value.content == s.queued[s.writes[|s.writes| - 1]])
    && (s.worker.Returning? ==> s.past.landed == Some(s.worker.place)
                                && s.writes != [] && s.writes[|s.writes| - 1] == s.worker.snapshot)
  }

  /** Snapshot i is the one on disk. */
  predicate Saves(s: Saver, i: nat) {
    s.writes != [] && s.writes[|s.writes| - 1] == i
  }

  predicate SavesLatest(s: Saver) {
    s.queued != [] && Saves(s, |s.queued| - 1)
  }

  /** With nothing pending, the worker deals with the latest snapshot: it is being written, on
      disk, or its write has failed; and an idle saver that reports no failure has saved it. */
  predicate LatestKnown(s: Saver) {
    && (!s.worker.Off? ==> s.queued != [])
    && (s.pending.None? && s.queued != [] ==>
          match s.worker
          case Off => !s.failed ==> SavesLatest(s)
          case InWrite(i) => i == |s.queued| - 1 && !SavesLatest(s)
          case Returning(_, _) => SavesLatest(s)
          case LastHop(saveFailed) => saveFailed <==> !SavesLatest(s))
  }

  /** A worker that runs after the idle signal runs for a snapshot queued after it. */
  predicate DrainKnown(s: Saver) {
    s.drain.Draining? ==>
      && s.stopping && s.drain.snapshot < |s.queued|
      && (s.drain.idleAt.None? ==> s.running)
      && (s.drain.idleAt.Some? ==>
            && s.drain.snapshot < s.drain.idleAt.value <= |s.queued|
            && (s.running ==> s.drain.idleAt.value < |s.queued|))
  }

  predicate Inv(s: Saver) {
    OneWriter(s) && InOrder(s) && OnDisk(s) && LatestKnown(s) && DrainKnown(s)
  }

  /** The loop head is entered with the latest snapshot pending or on disk. */
  lemma TakeKeeps(s: Saver)
    requires InOrder(s) && OnDisk(s) && DrainKnown(s) && s.running && s.coroutines == 1 && s.queued != []
    requires s.pending.Some? ==> s.pending.value == |s.queued| - 1
    requires s.pending.None? ==> SavesLatest(s)
    ensures Inv(TakeNext(s)) && TakeNext(s).running
  {
    hide Placed;
    if s.pending.Some? {
    } else {
    }
  }

  lemma QueuedKeeps(s: Saver, content: Content)
    requires Inv(s)
    ensures Inv(Queued(s, content)) && Queued(s, content).running
  {
    hide OneWriter, InOrder, OnDisk, LatestKnown, DrainKnown, TakeNext;
    var v := s.(queued := s.queued + [content], pending := Some(|s.queued|), failed := false);
    ReplacedKeeps(s, v);
    if !s.running {
      NoneRuns(s);
      TakeKeeps(v.(running := true, coroutines := 1));
    }
  }

  /** The newest snapshot replaces a pending one. */
  lemma ReplacedKeeps(s: Saver, v: Saver)
    requires Inv(s) && |v.queued| == |s.queued| + 1 && v.queued[..|s.queued|] == s.queued
    requires v == s.(queued := v.queued, pending := Some(|s.queued|), failed := false)
    ensures s.running ==> Inv(v)
    ensures
      var on := v.(running := true, coroutines := 1);
      !s.running ==> InOrder(on) && OnDisk(on) && DrainKnown(on)
  {
    hide Placed;
    assert forall i :: 0 <= i < |s.queued| ==> v.queued[i] == v.queued[..|s.queued|][i];
  }

  lemma NoneRuns(s: Saver)
    requires OneWriter(s) && !s.running
    ensures s.coroutines == 0 && s.worker.Off?
  {
  }

  lemma LandsSomewhere(p: Past, content: Content, time: nat, weather: Weather)
    requires Placed(p)
    ensures
      var landing := Landing(p.storage, weather);
      landing.Some? ==> Placed(Past(Written(p.storage, content, time, weather), Some(File(content, time)), landing))
  {
  }

  lemma WriteKeeps(s: Saver, time: nat, weather: Weather)
    requires Inv(s) && s.worker.InWrite? && s.worker.snapshot < |s.queued|
    ensures Inv(WriteEnds(s, time, weather))
  {
    hide OneWriter, InOrder, LatestKnown, DrainKnown, Placed, Written, Landing;
    if Landing(s.past.storage, weather).None? {
      LostKeeps(s);
    } else {
      LandsSomewhere(s.past, s.queued[s.worker.snapshot], time, weather);
      LandedKeeps(s, WriteEnds(s, time, weather));
    }
  }

  lemma LostKeeps(s: Saver)
    requires Inv(s) && s.worker.InWrite?
    ensures Inv(s.(worker := LastHop(true)))
  {
    hide Placed;
  }

  lemma LandedKeeps(s: Saver, s': Saver)
    requires Inv(s) && s.worker.InWrite? && s.worker.snapshot < |s.queued| && Placed(s'.past) && s'.past.landed.Some?
    requires s'.past.last.Some? && s'.past.last.value.content == s.queued[s.worker.snapshot]
    requires s' == s.(past := s'.past, writes := s.writes + [s.worker.snapshot],
                      worker := Returning(s.worker.snapshot, s'.past.landed.value))
    ensures Inv(s')
  {
    hide Placed;
  }

  lemma ResumeKeeps(s: Saver)
    requires Inv(s) && s.worker.Returning?
    ensures Inv(Resumed(s))
  {
    var past := s.past.(storage := s.past.storage.(active := Some(s.worker.place)));
    assert Placed(past);
    hide Placed, TakeNext;
    var v := s.(past := past);
    assert InOrder(v) && OnDisk(v);
    TakeKeeps(v);
  }

  lemma HopKeeps(s: Saver)
    requires Inv(s) && s.worker.LastHop?
    ensures Inv(HopEnds(s))
  {
    var off := s.(failed := s.worker.saveFailed, running := false, coroutines := 0, worker := Off,
                  drain := Signalled(s));
    HopStops(s, off);
    if s.pending.Some? && !s.stopping {
      TakeKeeps(off.(running := true, coroutines := 1));
    }
    hide Inv, TakeNext;
  }

  lemma HopStops(s: Saver, off: Saver)
    requires Inv(s) && s.worker.LastHop?
    requires off == s.(failed := s.worker.saveFailed, running := false, coroutines := 0, worker := Off,
                       drain := Signalled(s))
    ensures Inv(off) && s.coroutines == 1
    ensures
      var on := off.(running := true, coroutines := 1);
      InOrder(on) && OnDisk(on) && (!s.stopping ==> DrainKnown(on)) && on.queued != []
    ensures off.pending.Some? ==> off.pending.value == |off.queued| - 1
  {
    hide Placed;
  }

  /** Every step keeps one writer, the order, and the accounts of the disk and the drain. */
  lemma StepKeeps(s: Saver, e: Step)
    requires Inv(s) && Enabled(s, e)
    ensures Inv(Next(s, e))
  {
    if e.Queue? || e.BeginDrain? {
      QueueStepKeeps(s, e);
    } else if e.EndWrite? {
      WriteKeeps(s, e.time, e.weather);
    } else if e.Resume? {
      ResumeKeeps(s);
    } else if e.EndHop? {
      HopKeeps(s);
    } else {
      OutsideKeeps(s, e);
    }
    hide Inv, WriteEnds, Resumed, HopEnds, DrainBegins;
  }

  lemma OutsideKeeps(s: Saver, e: Step)
    requires Inv(s) && Enabled(s, e) && (e.Stop? || e.Report?)
    ensures Inv(Next(s, e))
  {
    hide Placed;
  }

  lemma QueueStepKeeps(s: Saver, e: Step)
    requires Inv(s) && Enabled(s, e) && (e.Queue? || e.BeginDrain?)
    ensures Inv(Next(s, e))
  {
    if e.content.Some? {
      QueuedKeeps(s, e.content.value);
      if e.BeginDrain? {
        DrainAside(Queued(s, e.content.value), Next(s, e).drain);
      }
    } else {
      FailureAside(s);
      DrainAside(s.(failed := true), Next(s, e).drain);
    }
    hide Queued, Inv;
  }

  lemma DrainAside(s: Saver, drain: Drain)
    requires Inv(s) && DrainKnown(s.(drain := drain))
    ensures Inv(s.(drain := drain))
  {
    hide Placed, DrainKnown;
  }

  lemma FailureAside(s: Saver)
    requires Inv(s)
    ensures Inv(s.(failed := true))
  {
    hide Placed;
  }
  // ---------------------------------------------------------------- whole runs

  /** A session starts with the files and the path that earlier sessions left. */
  predicate IsRun(ss: seq<Saver>, es: seq<Step>, past: Past) {
    && |ss| == |es| + 1 && ss[0] == NewSaver(past) && Placed(past)
    && forall i :: 0 <= i < |es| ==> Enabled(ss[i], es[i]) && ss[i + 1] == Next(ss[i], es[i])
  }

  lemma StepAt(ss: seq<Saver>, es: seq<Step>, past: Past, i: nat)
    requires IsRun(ss, es, past) && i + 1 < |ss|
    ensures i < |es| && Enabled(ss[i], es[i]) && ss[i + 1] == Next(ss[i], es[i])
  {
  }

  lemma {:induction false} RunKeeps(ss: seq<Saver>, es: seq<Step>, past: Past, i: nat)
    requires IsRun(ss, es, past) && i < |ss|
    ensures Inv(ss[i])
  {
    if i == 0 {
      hide Placed;
    } else {
      hide *;
      StepAt(ss, es, past, i - 1);
      RunKeeps(ss, es, past, i - 1);
      StepKeeps(ss[i - 1], es[i - 1]);
    }
  }

  /** Never two writers; what reached the disk is an ordered subsequence of what was queued;
      the last write is the file where it landed, and a load finds it exactly when the other
      place's file does not outrank it, whatever failed in between. */
  lemma SavesAreOrdered(ss: seq<Saver>, es: seq<Step>, past: Past, i: nat)
    requires IsRun(ss, es, past) && i < |ss|
    ensures ss[i].coroutines <= 1
    ensures forall j, k :: 0 <= j < k < |ss[i].writes| ==> ss[i].writes[j] < ss[i].writes[k] < |ss[i].queued|
    ensures ss[i].writes != [] ==>
              var p := ss[i].past;
              && p.landed.Some? && p.last.Some? && ss[i].writes[|ss[i].writes| - 1] < |ss[i].queued|
              && p.storage.At(p.landed.value) == p.last
              && p.last.value.content == ss[i].queued[ss[i].writes[|ss[i].writes| - 1]]
              && (LoadPlace(p.storage) == p.landed <==> NotOutranked(p.storage, p.landed.value, p.last.value.time))
  {
    RunKeeps(ss, es, past, i);
    if ss[i].writes != [] {
      LoadFindsLandedExactly(ss[i].past);
    }
    hide IsRun, LoadPlace, NotOutranked;
  }

  predicate Attended(s: Saver) {
    s.pending.Some? && !s.stopping ==> s.running
  }

  lemma StepAttends(s: Saver, e: Step)
    requires Attended(s) && Enabled(s, e)
    ensures Attended(Next(s, e))
  {
  }

  /** Until the application stops, a snapshot that waits always has a worker that will take it. */
  lemma {:induction false} PendingIsAttended(ss: seq<Saver>, es: seq<Step>, past: Past, i: nat)
    requires IsRun(ss, es, past) && i < |ss|
    ensures ss[i].pending.Some? && !ss[i].stopping ==> ss[i].running && !ss[i].worker.Off?
  {
    RunKeeps(ss, es, past, i);
    EveryStateAttends(ss, es, past, i);
    hide IsRun, InOrder, OnDisk, LatestKnown, DrainKnown;
  }

  lemma {:induction false} EveryStateAttends(ss: seq<Saver>, es: seq<Step>, past: Past, i: nat)
    requires IsRun(ss, es, past) && i < |ss|
    ensures Attended(ss[i])
  {
    if i > 0 {
      hide *;
      StepAt(ss, es, past, i - 1);
      EveryStateAttends(ss, es, past, i - 1);
      StepAttends(ss[i - 1], es[i - 1]);
    }
  }

  /** Every write happens later than the newest file before it. */
  predicate WritesTick(ss: seq<Saver>, es: seq<Step>) {
    && |ss| == |es| + 1 && Newest(ss[0].past.storage, ss[0].past.last)
    && forall i :: 0 <= i < |es| && es[i].EndWrite? ==> LaterThan(es[i].time, ss[i].past.last)
  }

  lemma StepKeepsNewest(s: Saver, e: Step)
    requires Inv(s) && Enabled(s, e) && Newest(s.past.storage, s.past.last)
    requires e.EndWrite? ==> LaterThan(e.time, s.past.last)
    ensures Newest(Next(s, e).past.storage, Next(s, e).past.last)
  {
    if e.EndWrite? {
      SaveIsNewest(s.past.storage, s.past.last, s.queued[s.worker.snapshot], e.time, e.weather);
      hide Newest, Written, Landing, Placed, LaterThan;
    } else if e.Resume? {
      hide InOrder, LatestKnown;
    } else {
      hide Newest;
    }
  }

  lemma {:induction false} RunKeepsNewest(ss: seq<Saver>, es: seq<Step>, past: Past, i: nat)
    requires IsRun(ss, es, past) && WritesTick(ss, es) && i < |ss|
    ensures Newest(ss[i].past.storage, ss[i].past.last)
  {
    if i != 0 {
      hide *;
      StepAt(ss, es, past, i - 1);
      RunKeeps(ss, es, past, i - 1);
      RunKeepsNewest(ss, es, past, i - 1);
      StepKeepsNewest(ss[i - 1], es[i - 1]);
    }
  }

  /** So under a clock that ticks between writes, a load finds the last write that landed. */
  lemma TickingWritesAreFound(ss: seq<Saver>, es: seq<Step>, past: Past, i: nat)
    requires IsRun(ss, es, past) && WritesTick(ss, es) && i < |ss| && ss[i].writes != []
    ensures
      var place := LoadPlace(ss[i].past.storage);
      && place.Some? && ss[i].past.storage.At(place.value).Some? && ss[i].writes[|ss[i].writes| - 1] < |ss[i].queued|
      && ss[i].past.storage.At(place.value).value.content == ss[i].queued[ss[i].writes[|ss[i].writes| - 1]]
  {
    RunKeeps(ss, es, past, i);
    RunKeepsNewest(ss, es, past, i);
    LoadFindsNewest(ss[i].past.storage, ss[i].past.last);
    hide IsRun, Newest, LoadPlace, WritesTick;
  }

  // ---------------------------------------------------------------- the drain

  /** The worker has taken the latest snapshot but not put it on disk. */
  predicate Overtaken(s: Saver) {
    s.pending.None? && (s.worker.InWrite? || s.worker == LastHop(true))
  }

  /** Whoever queues whenever: the drain is reported complete with the latest snapshot on disk
      exactly when it finished in time without a failure and the snapshot is there; and it is
      reported complete without it exactly when a worker has then just taken a snapshot that
      was queued after the idle signal. Snapshots queued before the signal are harmless. */
  lemma DrainReportsExactly(ss: seq<Saver>, es: seq<Step>, past: Past, r: nat)
    requires IsRun(ss, es, past) && r < |es| && es[r].Report?
    ensures
      var s, t := ss[r], ss[r + 1];
      && s.drain.Draining? && t.drain.Reported? && t.drain.snapshot == s.drain.snapshot
      && (t.drain.complete && SavesLatest(t) <==> es[r].finished && !s.failed && SavesLatest(s))
      && (t.drain.complete && !SavesLatest(t) <==> es[r].finished && !s.failed && Overtaken(s))
      && (es[r].finished ==> s.drain.idleAt.Some? && (Overtaken(s) ==> s.drain.idleAt.value < |s.queued|))
  {
    RunKeeps(ss, es, past, r);
    StepAt(ss, es, past, r);
    ReportExact(ss[r], es[r].finished);
    hide IsRun, Inv;
  }

  lemma ReportExact(s: Saver, finished: bool)
    requires Inv(s) && Enabled(s, Report(finished))
    ensures
      var t := DrainReports(s, finished);
      && (t.drain.complete && SavesLatest(t) <==> finished && !s.failed && SavesLatest(s))
      && (t.drain.complete && !SavesLatest(t) <==> finished && !s.failed && Overtaken(s))
      && (finished && Overtaken(s) ==> s.drain.idleAt.value < |s.queued|)
  {
    hide Placed;
    if s.pending.Some? {
    } else {
    }
  }

  /** What the application's callers do: RememberDevice and ForgetDevice are only reached
      behind checks that it is not stopping. */
  predicate FrozenAfterStop(ss: seq<Saver>, es: seq<Step>) {
    |ss| == |es| + 1 && forall i :: 0 <= i < |es| && ss[i].stopping ==> !es[i].Queue?
  }

  /** Then the drain's snapshot stays the latest. */
  predicate DrainTold(s: Saver) {
    s.drain.Draining? ==> |s.queued| == s.drain.snapshot + 1 && (s.drain.idleAt.Some? && SavesLatest(s) ==> !s.failed)
  }

  lemma DrainStep(s: Saver, e: Step)
    requires Inv(s) && DrainTold(s) && Enabled(s, e) && (s.stopping ==> !e.Queue?)
    ensures DrainTold(Next(s, e))
  {
    hide Placed, Written, Landing;
    if e.BeginDrain? {
    } else if e.EndHop? {
    } else if e.EndWrite? {
    } else {
    }
  }

  lemma {:induction false} DrainFollowed(ss: seq<Saver>, es: seq<Step>, past: Past, i: nat)
    requires IsRun(ss, es, past) && FrozenAfterStop(ss, es) && i < |ss|
    ensures DrainTold(ss[i])
  {
    if i == 0 {
      hide Placed;
    } else {
      hide *;
      StepAt(ss, es, past, i - 1);
      RunKeeps(ss, es, past, i - 1);
      DrainFollowed(ss, es, past, i - 1);
      DrainStep(ss[i - 1], es[i - 1]);
    }
  }

  /** In every run of the application the drain is reported complete exactly when it finished
      in time and the snapshot it queued, the latest, is the one on disk. */
  lemma CompleteMeansOnDisk(ss: seq<Saver>, es: seq<Step>, past: Past, r: nat)
    requires IsRun(ss, es, past) && FrozenAfterStop(ss, es) && r < |es| && es[r].Report?
    ensures
      var s := ss[r + 1];
      && s.drain.Reported? && |s.queued| == s.drain.snapshot + 1
      && (s.drain.complete <==> es[r].finished && Saves(s, s.drain.snapshot))
  {
    RunKeeps(ss, es, past, r);
    DrainFollowed(ss, es, past, r);
    DrainReportsExactly(ss, es, past, r);
    StepAt(ss, es, past, r);
    FrozenIsNotOvertaken(ss[r], es[r].finished);
    hide IsRun, Inv, FrozenAfterStop;
  }

  lemma FrozenIsNotOvertaken(s: Saver, finished: bool)
    requires Inv(s) && DrainTold(s) && Enabled(s, Report(finished))
    ensures finished ==> !Overtaken(s)
  {
    hide Placed;
  }

  /** The API itself does not rule that case out: this caller, which the application does not
      have, queues after the idle signal and is told of a completion that lost both. */
  lemma LateSnapshotFoolsTheDrain(past: Past, first: Content, later: Content, bad: Weather)
    requires Placed(past) && Landing(past.storage, bad).None?
    ensures
      var s0 := NewSaver(past).(stopping := true);
      var s1 := DrainBegins(s0, Some(first));
      var s2 := WriteEnds(s1, 1, bad);
      var s3 := HopEnds(s2);
      var s4 := Queued(s3, later);
      && s1.worker == InWrite(0) && s2.worker == LastHop(true) && Enabled(s4, Report(true))
      && DrainReports(s4, true).drain == Reported(0, true) && s4.writes == [] && Overtaken(s4)
  {
    hide Landing, Placed;
  }

  // ---------------------------------------------------------------- the UI thread's globals

  /** g_settingsPending and its flags, updated in place; each method runs to its next await. */
  class SaverState {
    var queued: seq<Content>
    var pending: Option<nat>
    var workerRunning: bool
    var saveFailed: bool
    var stopping: bool
    var coroutines: nat
    var worker: SaveWorker
    var writes: seq<nat>
    var past: Past
    var drain: Drain

    constructor (past: Past)
      ensures View() == NewSaver(past)
    {
      queued, pending, workerRunning, saveFailed, stopping := [], None, false, false, false;
      coroutines, worker, writes, drain := 0, Off, [], NotDraining;
      this.past := past;
    }

    function View(): Saver
      reads this
    {
      Saver(queued, pending, workerRunning, saveFailed, stopping, coroutines, worker, writes, past, drain)
    }

    /** None is a snapshot that could not be built. */
    method QueueSaveSettings(content: Option<Content>) returns (ok: bool)
      modifies this
      ensures View() == Next(old(View()), Queue(content)) && ok == content.Some?
    {
      if content.None? {
        saveFailed := true;
        return false;
      }
      queued := queued + [content.value];
      pending := Some(|queued| - 1);
      saveFailed := false;
      ok := true;
      if workerRunning {
        return;
      }
      hide TakeNext;
      BeginWorker();
    }

    /** Starting SaveSettingsWorker runs it to its first await. */
    method BeginWorker()
      modifies `workerRunning, `coroutines, `worker, `pending
      ensures View() == StartWorker(old(View()))
    {
      workerRunning, coroutines := true, coroutines + 1;
      LoopHead();
    }

    method LoopHead()
      modifies `worker, `pending
      ensures View() == TakeNext(old(View()))
    {
      if pending.None? {
        worker := LastHop(false);
        return;
      }
      worker := InWrite(pending.value);
      pending := None;
    }

    /** Back on the UI thread after a write that landed. */
    method AfterWrite()
      requires worker.Returning?
      modifies `past, `worker, `pending
      ensures View() == Resumed(old(View()))
    {
      past := past.(storage := past.storage.(active := Some(worker.place)));
      LoopHead();
    }

    /** After the worker's last hop: report, signal idle, and restart for a late snapshot. */
    method FinishWorker()
      requires worker.LastHop? && coroutines > 0
      modifies this
      ensures View() == HopEnds(old(View()))
    {
      saveFailed := worker.saveFailed;
      workerRunning, coroutines, worker := false, coroutines - 1, Off;
      if drain.Draining? && drain.idleAt.None? {
        drain := drain.(idleAt := Some(|queued|));
      }
      hide TakeNext;
      if pending.Some? && !stopping {
        BeginWorker();
      }
    }

    method FlushPendingSettings(content: Option<Content>)
      modifies this
      ensures View() == DrainBegins(old(View()), content)
    {
      var ok := QueueSaveSettings(content);
      if !ok {
        drain := DrainFailed;
        return;
      }
      assert View().queued == old(queued) + [content.value];
      drain := Draining(|queued| - 1, if workerRunning then None else Some(|queued|));
    }
  }
}
