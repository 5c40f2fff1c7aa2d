/** The endpoint disable/enable cycle of AudioFlowRecovery.hpp: once the endpoint may have been
    disabled, nothing but time ends the effort to enable it again. */
module EndpointCycle {
  import opened Numbers
  import opened Records

  const DISABLE_WAIT_MS: nat := 2000
  const RESTORE_BUDGET_MS: nat := 6000
  const ENABLE_WAIT_MS: nat := 2000

  datatype Command = Disable | Enable

  /** What one SetEndpointVisibility(true) meets: the call's answer, whether the endpoint is
      seen active or unplugged again, and how long the waits last. */
  datatype Attempt = Attempt(accepted: bool, confirmed: bool, waitMs: nat, pauseMs: nat)
  {
    predicate Restores() { accepted && confirmed }
  }

  /** The answers of the system, in the order Cycle asks for them. `mayBegin` and `stillMay`
      are the two readings of "opened and before the recovery deadline"; `ready` is the last
      check of the endpoint and its jack. Enabling goes on while `attempts` last and there is time. */
  datatype Script = Script(
    mayBegin: bool,
    sameEndpoint: bool,
    stateRead: bool,
    visible: bool,
    policyCreated: bool,
    registered: bool,
    stillMay: bool,
    ready: bool,
    disabled: bool,
    disableObserved: bool,
    disableWaitMs: nat,
    attempts: seq<Attempt>)

  datatype Result =
    | CycleDone
    | NotVisible
    | Aborted
    | SetupFailed
    | DisableFailed
    | DisableUnseen
    | EnableFailed
    | EnableUnseen

  /** The checks before the first command; a cleanup after a close skips the repair's own. */
  predicate Cleared(s: Script, closing: bool) {
    && (closing || s.mayBegin) && s.sameEndpoint && s.stateRead && s.visible && s.policyCreated && s.registered
    && (closing || (s.stillMay && s.ready))
  }

  /** Cycle touches the endpoint only when every check passed. It then disables it once and
      enables it at least once; it ends with the endpoint seen enabled, or with a further
      enable from the restore guard. Success means disabled, seen disabled and seen enabled
      again, and the waits stay within their budgets whatever the system answers. */
  method Cycle(s: Script, closing: bool, start: nat)
      returns (result: Result, commands: seq<Command>, tries: nat, restored: bool, end: nat)
    ensures commands == [] <==> !Cleared(s, closing)
    ensures commands == [] ==>
      (result.NotVisible? || result.Aborted? || result.SetupFailed?) && tries == 0 && !restored && end == start
    ensures commands != [] ==>
              && tries >= 1 && commands == [Disable] + seq(tries, _ => Enable) + (if restored then [] else [Enable])
              && (restored <==> tries <= |s.attempts| && s.attempts[tries - 1].Restores())
              && (forall k :: 0 <= k < tries - 1 && k < |s.attempts| ==> !s.attempts[k].Restores())
    ensures result.CycleDone? <==> commands != [] && s.disabled && s.disableObserved && restored
    ensures result.EnableFailed? || result.EnableUnseen? <==> commands != [] && !restored
    ensures result.EnableUnseen? <==>
              commands != [] && !restored && tries <= |s.attempts| && s.attempts[tries - 1].accepted
    ensures result.DisableFailed? <==> commands != [] && restored && !s.disabled
    ensures result.DisableUnseen? <==> commands != [] && restored && s.disabled && !s.disableObserved
    ensures
      var begins := (closing || s.mayBegin) && s.sameEndpoint;
      && (result.NotVisible? <==> begins && s.stateRead && !s.visible)
      && (result.SetupFailed? <==>
            begins && (!s.stateRead || (s.visible && (!s.policyCreated || !s.registered))))
    ensures commands != [] && !restored ==> end - start >= 6000
    ensures start <= end <= start + 2000 + 6000
  {
    commands, tries, restored, end := [], 0, false, start;
    if (!closing && !s.mayBegin) || !s.sameEndpoint {
      result := Aborted;
      return;
    }
    if !s.stateRead {
      result := SetupFailed;
      return;
    }
    if !s.visible {
      result := NotVisible;
      return;
    }
    if !s.policyCreated || !s.registered {
      result := SetupFailed;
      return;
    }
    if !closing && (!s.stillMay || !s.ready) {
      result := Aborted;
      return;
    }
    commands := [Disable];
    if s.disabled {
      end := start + Min(s.disableWaitMs, DISABLE_WAIT_MS);
    }
    var enabled;
    commands, tries, restored, enabled, end := Reenable(s.attempts, end);
    if !restored {
      commands := commands + [Enable];
    }
    result := if !restored then (if enabled then EnableUnseen else EnableFailed)
              else if !s.disabled then DisableFailed
              else if s.disableObserved then CycleDone else DisableUnseen;
  }

  /** The do-while loop that enables until it is seen to work or the budget is spent. */
  method Reenable(attempts: seq<Attempt>, begin: nat)
      returns (commands: seq<Command>, tries: nat, restored: bool, enabled: bool, now: nat)
    ensures tries >= 1 && commands == [Disable] + seq(tries, _ => Enable)
    ensures restored <==> tries <= |attempts| && attempts[tries - 1].Restores()
    ensures forall k :: 0 <= k < tries - 1 && k < |attempts| ==> !attempts[k].Restores()
    ensures enabled <==> tries <= |attempts| && attempts[tries - 1].accepted
    ensures !restored ==> now == begin + 6000
    ensures begin <= now <= begin + 6000
  {
    var restoreDeadline := begin + RESTORE_BUDGET_MS;
    commands, tries, restored, enabled, now := [Disable], 0, false, false, begin;
    var retry := 0;
    var more := true;
    while more
      invariant begin <= now <= restoreDeadline && commands == [Disable] + seq(tries, _ => Enable)
      invariant tries == 0 ==> more && !restored
      invariant tries > 0 ==> (restored <==> tries <= |attempts| && attempts[tries - 1].Restores())
      invariant restored ==> !more
      invariant tries > 0 ==> (enabled <==> tries <= |attempts| && attempts[tries - 1].accepted)
      invariant !more && !restored ==> now == restoreDeadline
      invariant forall k :: 0 <= k < tries - 1 && k < |attempts| ==> !attempts[k].Restores()
      invariant more ==> tries <= |attempts|
      decreases |attempts| + 1 - tries, more
    {
      // With no answers left the call fails and the remaining time passes.
      var a := if tries < |attempts| then attempts[tries] else Attempt(false, false, 0, RESTORE_BUDGET_MS);
      commands := commands + [Enable];
      enabled := a.accepted;
      if enabled {
        now := now + Min(a.waitMs, Min(restoreDeadline - now, ENABLE_WAIT_MS));
      }
      restored := enabled && a.confirmed;
      if restored || now >= restoreDeadline {
        more := false;
      } else {
        var delay := Min(RetryDelayMs(retry), restoreDeadline - now);
        now := now + (if tries < |attempts| then Min(a.pauseMs, delay) else restoreDeadline - now);
        retry := retry + 1;
        more := now < restoreDeadline;
      }
      tries := tries + 1;
      assert seq(tries, _ => Enable) == seq(tries - 1, _ => Enable) + [Enable];
    }
  }
}
