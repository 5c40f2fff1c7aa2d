/** AudioFlowPolicy.hpp: when silence means a dead pipeline. */
module RecoveryPolicy {
  // The incremental monitor, against what it should say about the whole history of observations.

  const NO_FRAMES_MS: nat := 500
  const MAX_OBSERVATION_GAP_MS: nat := 250

  datatype Observation = Observation(
    tickMs: nat,
    currentSession: bool,
    isOpened: bool,
    cancelled: bool,
    endpointActive: bool,
    jackKnown: bool,
    jackConnected: bool,
    captureStarted: bool,
    captureReadOk: bool,
    frames: nat)
  {
    /** The session is gone, cancelled or not open. */
    predicate Ended() { cancelled || !currentSession || !isOpened }

    predicate Paused() { !Ended() && endpointActive && jackKnown && !jackConnected }

    predicate Capturing() {
      !Ended() && endpointActive && jackKnown && jackConnected && captureStarted && captureReadOk
    }

    /** A fully ready capture pipeline that delivered nothing. */
    predicate Silent() { Capturing() && frames == 0 }

    /** What ends the authorization for good. */
    predicate Disarms() { Ended() || Paused() || (Capturing() && frames != 0) }
  }

  datatype Decision =
    | Wait
    | Healthy
    | PlaybackPaused
    | Unknown
    | SessionCancelled
    | Recover
    | AlreadyAttempted
    | Deferred

  // ---------------------------------------------------------------- what it should say

  /** Silence from observation s to observation n with every tick step within 0..250 ms. */
  predicate SilentRun(h: seq<Observation>, s: nat, n: nat)
    requires s <= n < |h|
  {
    && (forall i :: s <= i <= n ==> h[i].Silent())
    && (forall i :: s < i <= n ==> 0 <= h[i].tickMs - h[i - 1].tickMs <= 250)
  }

  /** Some silent run ending in observation n spans at least 500 ms. */
  predicate Overdue(h: seq<Observation>, n: nat)
    requires n < |h|
  {
    exists s: nat :: s <= n && SilentRun(h, s, n) && h[n].tickMs - h[s].tickMs >= 500
  }

  predicate ArmedThrough(h: seq<Observation>, n: nat)
    requires n <= |h|
  {
    forall i :: 0 <= i < n ==> !h[i].Disarms()
  }

  predicate OverdueBefore(h: seq<Observation>, n: nat)
    requires n <= |h|
  {
    exists m :: 0 <= m < n && Overdue(h, m)
  }

  /** A recovery is due at observation n: authorized, never disarmed, overdue for the first time. */
  predicate RecoveryDue(authorized: bool, h: seq<Observation>, n: nat)
    requires n < |h|
  {
    authorized && ArmedThrough(h, n + 1) && Overdue(h, n) && !OverdueBefore(h, n)
  }

  /** The decision at the last observation, from the whole history. */
  function Verdict(authorized: bool, h: seq<Observation>): Decision
    requires h != []
  {
    var n := |h| - 1;
    var o := h[n];
    if o.Ended() then SessionCancelled
    else if o.Paused() then PlaybackPaused
    else if !o.Capturing() then Unknown
    else if o.frames != 0 then Healthy
    else if !authorized || !ArmedThrough(h, n) then Deferred
    else if OverdueBefore(h, n) then AlreadyAttempted
    else if Overdue(h, n) then Recover
    else Wait
  }

  /** Recover is the verdict exactly when a recovery is due. */
  lemma RecoverExactlyWhenDue(authorized: bool, h: seq<Observation>)
    requires h != []
    ensures Verdict(authorized, h).Recover? <==> RecoveryDue(authorized, h, |h| - 1)
  {
    var n := |h| - 1;
    if Overdue(h, n) {
      var s: nat :| s <= n && SilentRun(h, s, n) && h[n].tickMs - h[s].tickMs >= NO_FRAMES_MS;
      assert h[n].Silent();
    }
  }

  lemma OverdueOfPrefix(h: seq<Observation>, g: seq<Observation>, n: nat)
    requires h <= g && n < |h|
    ensures Overdue(h, n) <==> Overdue(g, n)
  {
    assert forall i :: 0 <= i < |h| ==> h[i] == g[i];
    forall s: nat | s <= n ensures SilentRun(h, s, n) <==> SilentRun(g, s, n) {
    }
  }

  /** At most one Recover over any sequence of observations, and none once a frame, a pause
      or the end of the session was seen. */
  lemma AtMostOneRecovery(authorized: bool, g: seq<Observation>, m: nat, n: nat)
    requires m < n < |g| && Verdict(authorized, g[..n + 1]).Recover?
    ensures !Verdict(authorized, g[..m + 1]).Recover?
    ensures !g[m].Disarms()
  {
    RecoverExactlyWhenDue(authorized, g[..n + 1]);
    RecoverExactlyWhenDue(authorized, g[..m + 1]);
    OverdueOfPrefix(g[..m + 1], g[..n + 1], m);
    assert g[m] == g[..n + 1][m];
  }

  // ---------------------------------------------------------------- the maximal silent run

  /** Where the maximal silent run ending in observation n starts. */
  function RunStart(h: seq<Observation>, n: nat): (s: nat)
    requires n < |h| && h[n].Silent()
    ensures s <= n && SilentRun(h, s, n)
    ensures h[s].tickMs <= h[n].tickMs
  {
    if n > 0 && h[n - 1].Silent() && 0 <= h[n].tickMs - h[n - 1].tickMs <= MAX_OBSERVATION_GAP_MS
    then RunStart(h, n - 1)
    else n
  }

  /** No silent run starts earlier, and a later start spans less. */
  lemma {:induction false} RunStartIsMaximal(h: seq<Observation>, s: nat, n: nat)
    requires s <= n < |h| && SilentRun(h, s, n)
    ensures RunStart(h, n) <= s && h[RunStart(h, n)].tickMs <= h[s].tickMs <= h[n].tickMs
    decreases n
  {
    hide RunStart;
    if s < n {
      assert 0 <= h[n].tickMs - h[n - 1].tickMs <= MAX_OBSERVATION_GAP_MS;
      RunStartBefore(h, n);
      RunStartIsMaximal(h, s, n - 1);
    }
  }

  lemma RunStartBefore(h: seq<Observation>, n: nat)
    requires 0 < n < |h| && h[n].Silent() && h[n - 1].Silent()
    requires 0 <= h[n].tickMs - h[n - 1].tickMs <= MAX_OBSERVATION_GAP_MS
    ensures RunStart(h, n) == RunStart(h, n - 1)
  {
    hide SilentRun;
  }

  /** Overdue is a statement about the maximal silent run only. */
  lemma OverdueByMaximalRun(h: seq<Observation>, n: nat)
    requires n < |h|
    ensures Overdue(h, n) <==> h[n].Silent() && h[n].tickMs - h[RunStart(h, n)].tickMs >= NO_FRAMES_MS
  {
    if Overdue(h, n) {
      var s: nat :| s <= n && SilentRun(h, s, n) && h[n].tickMs - h[s].tickMs >= NO_FRAMES_MS;
      RunStartIsMaximal(h, s, n);
    }
  }

  lemma {:induction false} RunStartOfPrefix(h: seq<Observation>, g: seq<Observation>, n: nat)
    requires h <= g && n < |h| && h[n].Silent()
    ensures RunStart(h, n) == RunStart(g, n)
  {
    assert h[n] == g[n];
    if n > 0 {
      assert h[n - 1] == g[n - 1];
      if h[n - 1].Silent() {
        RunStartOfPrefix(h, g, n - 1);
      }
    }
  }

  // ---------------------------------------------------------------- one more observation

  lemma ArmedExtended(h: seq<Observation>, o: Observation)
    ensures ArmedThrough(h + [o], |h| + 1) <==> ArmedThrough(h, |h|) && !o.Disarms()
    ensures ArmedThrough(h + [o], |h|) <==> ArmedThrough(h, |h|)
  {
    var g := h + [o];
    assert g[|h|] == o;
    assert forall i :: 0 <= i < |h| ==> g[i] == h[i];
  }

  lemma OverdueExtended(h: seq<Observation>, o: Observation)
    ensures OverdueBefore(h + [o], |h|) <==> OverdueBefore(h, |h|)
    ensures OverdueBefore(h + [o], |h| + 1) <==> OverdueBefore(h, |h|) || Overdue(h + [o], |h|)
  {
    var g := h + [o];
    assert h <= g;
    forall m | 0 <= m < |h| ensures Overdue(h, m) <==> Overdue(g, m) {
      OverdueOfPrefix(h, g, m);
    }
    hide Overdue;
    if OverdueBefore(h, |h|) {
      var m :| 0 <= m < |h| && Overdue(h, m);
      assert Overdue(g, m);
    }
    if OverdueBefore(g, |h| + 1) {
      var m :| 0 <= m < |h| + 1 && Overdue(g, m);
      if m < |h| {
        assert Overdue(h, m);
      }
    }
  }

  /** The tick at which the maximal silent run ending now began. */
  function BeganAt(h: seq<Observation>): nat
    requires h != [] && h[|h| - 1].Silent()
  {
    h[RunStart(h, |h| - 1)].tickMs
  }

  lemma RunExtended(h: seq<Observation>, o: Observation)
    requires o.Silent()
    ensures
      var g := h + [o];
      BeganAt(g) == if h != [] && h[|h| - 1].Silent() && 0 <= o.tickMs - h[|h| - 1].tickMs <= MAX_OBSERVATION_GAP_MS
                    then BeganAt(h) else o.tickMs
  {
    var g := h + [o];
    assert h <= g && g[|h|] == o;
    if h != [] && h[|h| - 1].Silent() {
      assert g[|h| - 1] == h[|h| - 1];
      RunStartOfPrefix(h, g, |h| - 1);
    }
  }

  lemma OverdueNow(h: seq<Observation>)
    requires h != []
    ensures
      var o := h[|h| - 1];
      && (Overdue(h, |h| - 1) <==> o.Silent() && o.tickMs - BeganAt(h) >= NO_FRAMES_MS)
      && (o.Silent() ==> BeganAt(h) <= o.tickMs)
  {
    OverdueByMaximalRun(h, |h| - 1);
  }

  // ---------------------------------------------------------------- the incremental monitor

  /** The fields of RecoveryPolicy. */
  datatype Monitor = Monitor(authorized: bool, disarmed: bool, pending: bool, attempted: bool, began: nat, last: nat)

  function Observed(m: Monitor, o: Observation): (Monitor, Decision) {
    if o.Ended() then (m.(disarmed := true, pending := false), SessionCancelled)
    else if !o.endpointActive || !o.jackKnown then (m.(pending := false), Unknown)
    else if !o.jackConnected then (m.(disarmed := true, pending := false), PlaybackPaused)
    else if !o.captureStarted || !o.captureReadOk then (m.(pending := false), Unknown)
    else if o.frames != 0 then (m.(disarmed := true, pending := false), Healthy)
    else ObservedSilence(m, o)
  }

  function ObservedSilence(m: Monitor, o: Observation): (Monitor, Decision) {
    if !m.authorized || m.disarmed then (m.(pending := false), Deferred)
    else if m.attempted then (m, AlreadyAttempted)
    else
      var restart := !m.pending || o.tickMs < m.last || o.tickMs - m.last > MAX_OBSERVATION_GAP_MS;
      var began := if restart then o.tickMs else m.began;
      if o.tickMs - began < NO_FRAMES_MS then (m.(pending := true, began := began, last := o.tickMs), Wait)
      else (m.(pending := false, attempted := true, began := began, last := o.tickMs), Recover)
  }

  /** The fields summarize the observations so far. */
  predicate Summary(m: Monitor, h: seq<Observation>) {
    && (m.disarmed <==> !ArmedThrough(h, |h|))
    && (m.authorized && !m.disarmed ==> (m.attempted <==> OverdueBefore(h, |h|)))
    && (m.authorized && !m.disarmed && !m.attempted ==>
          && (m.pending <==> h != [] && h[|h| - 1].Silent())
          && (m.pending ==> m.last == h[|h| - 1].tickMs && m.began == BeganAt(h)))
  }

  lemma LoudStep(m: Monitor, h: seq<Observation>, o: Observation)
    requires Summary(m, h) && !o.Silent()
    ensures Summary(Observed(m, o).0, h + [o]) && Observed(m, o).1 == Verdict(m.authorized, h + [o])
  {
    ArmedExtended(h, o);
    OverdueExtended(h, o);
    OverdueNow(h + [o]);
    assert (h + [o])[|h|] == o;
    hide Overdue, OverdueBefore, ArmedThrough, BeganAt;
  }

  lemma SilentVerdict(authorized: bool, h: seq<Observation>, o: Observation)
    requires o.Silent()
    ensures Verdict(authorized, h + [o]) ==
      if !authorized || !ArmedThrough(h, |h|) then Deferred
      else if OverdueBefore(h, |h|) then AlreadyAttempted
      else if o.tickMs - BeganAt(h + [o]) >= NO_FRAMES_MS then Recover
      else Wait
  {
    ArmedExtended(h, o);
    OverdueExtended(h, o);
    OverdueNow(h + [o]);
    assert (h + [o])[|h|] == o;
    hide Overdue, OverdueBefore, ArmedThrough, BeganAt;
  }

  lemma SilentStep(m: Monitor, h: seq<Observation>, o: Observation)
    requires Summary(m, h) && o.Silent()
    ensures Summary(ObservedSilence(m, o).0, h + [o])
    ensures ObservedSilence(m, o).1 == Verdict(m.authorized, h + [o])
  {
    SilentVerdict(m.authorized, h, o);
    ArmedExtended(h, o);
    OverdueExtended(h, o);
    OverdueNow(h + [o]);
    RunExtended(h, o);
    assert (h + [o])[|h|] == o;
    hide Overdue, OverdueBefore, ArmedThrough, BeganAt, Verdict;
  }

  /** One observation: the summary stays right and the decision is the verdict on everything seen. */
  lemma EachDecisionIsTheVerdict(m: Monitor, h: seq<Observation>, o: Observation)
    requires Summary(m, h)
    ensures Summary(Observed(m, o).0, h + [o]) && Observed(m, o).1 == Verdict(m.authorized, h + [o])
  {
    if o.Silent() {
      SilentStep(m, h, o);
    } else {
      LoudStep(m, h, o);
    }
    hide Summary, Verdict, ObservedSilence;
  }

  class Policy {
    const authorized: bool
    var disarmed: bool
    var pending: bool
    var attempted: bool
    var began: nat
    var last: nat
    ghost var history: seq<Observation>

    constructor (authorized: bool)
      ensures Valid() && history == [] && this.authorized == authorized
    {
      this.authorized := authorized;
      disarmed, pending, attempted, began, last, history := false, false, false, 0, 0, [];
    }

    function View(): Monitor
      reads this
    {
      Monitor(authorized, disarmed, pending, attempted, began, last)
    }

    ghost predicate Valid()
      reads this
    {
      Summary(View(), history)
    }

    /** Each decision is the verdict on the whole history. */
    method Observe(o: Observation) returns (decision: Decision)
      requires Valid()
      modifies this
      ensures Valid() && history == old(history) + [o]
      ensures (View(), decision) == Observed(old(View()), o)
      ensures decision == Verdict(authorized, history)
    {
      hide Summary, Verdict, ObservedSilence;
      EachDecisionIsTheVerdict(View(), history, o);
      history := history + [o];
      if o.cancelled || !o.currentSession || !o.isOpened {
        disarmed, pending := true, false;
        return SessionCancelled;
      }
      if !o.endpointActive || !o.jackKnown {
        pending := false;
        return Unknown;
      }
      if !o.jackConnected {
        disarmed, pending := true, false;
        return PlaybackPaused;
      }
      if !o.captureStarted || !o.captureReadOk {
        pending := false;
        return Unknown;
      }
      if o.frames != 0 {
        disarmed, pending := true, false;
        return Healthy;
      }
      decision := ObserveSilence(o);
    }

    /** Capture works and delivers nothing. */
    method ObserveSilence(o: Observation) returns (decision: Decision)
      modifies `pending, `attempted, `began, `last
      ensures (View(), decision) == ObservedSilence(old(View()), o)
    {
      if !authorized || disarmed {
        pending := false;
        return Deferred;
      }
      if attempted {
        return AlreadyAttempted;
      }
      if !pending || o.tickMs < last || o.tickMs - last > MAX_OBSERVATION_GAP_MS {
        pending, began := true, o.tickMs;
      }
      last := o.tickMs;
      if o.tickMs - began < NO_FRAMES_MS {
        return Wait;
      }
      pending, attempted := false, true;
      return Recover;
    }
  }

  /** A whole session: the decisions of a fresh policy on any sequence of observations. */
  function Decisions(authorized: bool, h: seq<Observation>): (r: (Monitor, seq<Decision>))
    ensures |r.1| == |h|
  {
    if h == [] then (Monitor(authorized, false, false, false, 0, 0), [])
    else
      var (m, ds) := Decisions(authorized, h[..|h| - 1]);
      (Observed(m, h[|h| - 1]).0, ds + [Observed(m, h[|h| - 1]).1])
  }

  /** Over any sequence of observations, step n answers Recover exactly when the recovery is
      due there; so there is at most one, and none after frames, a pause or a cancellation. */
  lemma {:induction false} RecoversExactlyWhenDue(authorized: bool, h: seq<Observation>, n: nat)
    requires n < |h|
    ensures Decisions(authorized, h).1[n].Recover? <==> RecoveryDue(authorized, h[..n + 1], n)
  {
    if n + 1 == |h| {
      assert h[..n + 1] == h && h[..n] + [h[n]] == h;
      Summarized(authorized, h[..n]);
      EachDecisionIsTheVerdict(Decisions(authorized, h[..n]).0, h[..n], h[n]);
      RecoverExactlyWhenDue(authorized, h);
      hide Observed, Summary, Verdict, RecoveryDue;
    } else {
      assert h[..|h| - 1][..n + 1] == h[..n + 1];
      RecoversExactlyWhenDue(authorized, h[..|h| - 1], n);
      hide Observed, RecoveryDue;
    }
  }

  lemma {:induction false} Summarized(authorized: bool, h: seq<Observation>)
    ensures Summary(Decisions(authorized, h).0, h) && Decisions(authorized, h).0.authorized == authorized
  {
    if h != [] {
      var n := |h| - 1;
      assert h[..n] + [h[n]] == h;
      Summarized(authorized, h[..n]);
      EachDecisionIsTheVerdict(Decisions(authorized, h[..n]).0, h[..n], h[n]);
      hide Observed, Summary;
    }
  }

}
