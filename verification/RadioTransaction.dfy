/** RunBluetoothRecoveryTransaction of BluetoothRecovery.hpp: the radio goes off and on again. */
module RadioTransaction {
  import opened Wrappers
  import opened Numbers
  import opened Records

  // Off has to come within a primary deadline, and is always compensated by an On inside an
  // independent restore budget. Times are milliseconds; foreground hops take none.

  const OFF_TIMEOUT_MS: nat := 5000
  const ON_TIMEOUT_MS: nat := 8000
  const RESTORE_TIMEOUT_MS: nat := 8000

  datatype Fault = Timeout | Cancellation | OtherFault

  /** How one system call answers: a value or an exception, after some time. */
  datatype Reply<T> = Got(value: T, takes: nat) | Threw(fault: Fault, takes: nat)

  datatype Command = Off | On

  /** Everything the environment decides during one transaction. */
  datatype Script = Script(
    cachedAccess: bool,
    hasRadio: bool,
    cancelledAtStart: bool,
    cancelledBeforeAccess: bool,
    access: Reply<bool>,
    isOff: Reply<bool>,
    cancelledBeforeOff: bool,
    off: Reply<bool>,
    offSeen: Reply<bool>,
    isOn: Reply<bool>,
    on: Reply<bool>,
    onSeen: Reply<bool>)

  /** CheckAsyncDeadline: cancellation is looked at before the clock. */
  function Check(cancelled: bool, now: nat, deadline: nat): Option<Fault> {
    if cancelled then Some(Cancellation) else if now >= deadline then Some(Timeout) else None
  }

  /** AwaitBounded: nothing is waited for past the deadline. */
  function Bounded<T>(reply: Reply<T>, now: nat, deadline: nat): Reply<T> {
    if now >= deadline then Threw(Timeout, 0)
    else if reply.takes > deadline - now then Threw(Timeout, deadline - now)
    else reply
  }

  /** WaitForRadioState answers false when its own limit passes first. */
  function Limited(reply: Reply<bool>, limit: nat): Reply<bool> {
    if reply.takes > limit then Got(false, limit) else reply
  }

  /** The state of the transaction between its steps. */
  datatype Progress = Progress(
    now: nat,
    commands: seq<Command>,
    offRequested: bool,
    offConfirmed: bool,
    onConfirmed: bool,
    primary: Recovery,
    onFailure: Recovery)

  function PrimaryFault(fault: Fault): Recovery {
    match fault
    case Timeout => OperationTimedOut
    case Cancellation => RecoveryCancelled
    case OtherFault => UnexpectedFailure
  }

  /** The off half, from the state the transaction starts in. */
  function Primary(s: Script, start: nat, deadline: nat): Progress {
    var p := Progress(start, [], false, false, false, UnexpectedFailure, TurnOnTimedOut);
    if Check(s.cancelledAtStart, start, deadline).Some?
    then p.(primary := PrimaryFault(Check(s.cancelledAtStart, start, deadline).value))
    else if s.cachedAccess then WithAccess(s, p, true, deadline)
    else if Check(s.cancelledBeforeAccess, start, deadline).Some?
    then p.(primary := PrimaryFault(Check(s.cancelledBeforeAccess, start, deadline).value))
    else
      var access := Bounded(s.access, start, deadline);
      var p := p.(now := start + access.takes);
      if access.Threw? then p.(primary := PrimaryFault(access.fault))
      else WithAccess(s, p, access.value, deadline)
  }

  function WithAccess(s: Script, p: Progress, allowed: bool, deadline: nat): Progress {
    if !allowed then p.(primary := AccessDenied)
    else if !s.hasRadio then p.(primary := RadioUnavailable)
    else if s.isOff.Threw? then p.(primary := PrimaryFault(s.isOff.fault))
    else if s.isOff.value then p.(offConfirmed := true, primary := NotRequired)
    else if Check(s.cancelledBeforeOff, p.now, deadline).Some?
    then p.(primary := PrimaryFault(Check(s.cancelledBeforeOff, p.now, deadline).value))
    else TurnOff(s, p, Min(deadline, p.now + OFF_TIMEOUT_MS))
  }

  function TurnOff(s: Script, p: Progress, offDeadline: nat): Progress {
    var off := Bounded(s.off, p.now, offDeadline);
    var p := p.(now := p.now + off.takes, offRequested := true, commands := p.commands + [Off]);
    if off.Threw? then p.(primary := PrimaryFault(off.fault))
    else if !off.value then p.(primary := TurnOffDenied)
    else
      var seen := Bounded(Limited(s.offSeen, OFF_TIMEOUT_MS), p.now, offDeadline);
      var p := p.(now := p.now + seen.takes);
      if seen.Threw? then p.(primary := PrimaryFault(seen.fault))
      else p.(offConfirmed := seen.value, primary := if seen.value then NotRequired else TurnOffTimedOut)
  }

  function OnFault(fault: Fault): Recovery {
    if fault.Timeout? then TurnOnTimedOut else UnexpectedFailure
  }

  /** The on half: runs whenever Off may have been sent or the radio was found off. */
  function Restore(s: Script, p: Progress): Progress {
    if !(s.hasRadio && (p.offRequested || p.offConfirmed)) then p
    else if !p.offRequested && s.isOn.Threw? then p.(onFailure := OnFault(s.isOn.fault))
    else if !p.offRequested && s.isOn.value then p.(onConfirmed := true)
    else
      var deadline := p.now + RESTORE_TIMEOUT_MS;
      var on := Bounded(s.on, p.now, deadline);
      var p := p.(now := p.now + on.takes, commands := p.commands + [On]);
      if on.Threw? then p.(onFailure := OnFault(on.fault))
      else if !on.value then p.(onFailure := TurnOnDenied)
      else
        var seen := Bounded(Limited(s.onSeen, ON_TIMEOUT_MS), p.now, deadline);
        var p := p.(now := p.now + seen.takes);
        if seen.Threw? then p.(onFailure := OnFault(seen.fault))
        else p.(onConfirmed := seen.value)
  }

  function Verdict(p: Progress): Recovery {
    if p.offConfirmed && p.onConfirmed && p.primary.NotRequired? then Succeeded
    else if (p.offRequested || p.offConfirmed) && !p.onConfirmed then p.onFailure
    else p.primary
  }

  function Final(s: Script, start: nat, deadline: nat): Progress {
    Restore(s, Primary(s, start, deadline))
  }

  function Outcome(s: Script, start: nat, deadline: nat): Recovery {
    Verdict(Final(s, start, deadline))
  }

  /** What the off half hands to the restore half. */
  ghost predicate OffHalf(s: Script, p: Progress) {
    && p.commands == (if p.offRequested then [Off] else [])
    && (p.offConfirmed <==> p.primary.NotRequired?)
    && (p.offRequested || p.offConfirmed ==> s.hasRadio)
    && !p.onConfirmed && p.onFailure.TurnOnTimedOut?
    && !p.primary.Succeeded? && !p.primary.TurnOnTimedOut? && !p.primary.TurnOnDenied?
  }

  ghost predicate Untouched(p: Progress) {
    && p.commands == [] && !p.offRequested && !p.offConfirmed && !p.onConfirmed
    && p.primary.UnexpectedFailure? && p.onFailure.TurnOnTimedOut?
  }

  // ---------------------------------------------------------------- when each half does what

  /** A call that answers before the deadline passes. */
  predicate InTime<T>(reply: Reply<T>, now: nat, deadline: nat) {
    now < deadline && reply.Got? && now + reply.takes <= deadline
  }

  /** Nothing cancelled or timed out before access was granted. */
  predicate Granted(s: Script, start: nat, deadline: nat) {
    && !s.cancelledAtStart && start < deadline
    && (s.cachedAccess || (!s.cancelledBeforeAccess && InTime(s.access, start, deadline) && s.access.value))
  }

  function GrantedAt(s: Script, start: nat): nat {
    if s.cachedAccess then start else start + s.access.takes
  }

  /** The radio was readable and off already. */
  predicate FoundOff(s: Script, start: nat, deadline: nat) {
    Granted(s, start, deadline) && s.hasRadio && s.isOff.Got? && s.isOff.value
  }

  predicate AsksOff(s: Script, start: nat, deadline: nat) {
    && Granted(s, start, deadline) && s.hasRadio && s.isOff.Got? && !s.isOff.value
    && !s.cancelledBeforeOff && GrantedAt(s, start) < deadline
  }

  /** A request is allowed and its effect seen, both before the deadline and the effect within its own limit. */
  predicate TakesEffect(request: Reply<bool>, effect: Reply<bool>, limit: nat, now: nat, deadline: nat) {
    && InTime(request, now, deadline) && request.value
    && effect.takes <= limit && InTime(effect, now + request.takes, deadline) && effect.value
  }

  /** The on half sends On unless there is nothing to restore, or the radio cannot be read or is on by itself. */
  predicate AsksOn(s: Script, p: Progress) {
    s.hasRadio && (p.offRequested || (p.offConfirmed && s.isOn.Got? && !s.isOn.value))
  }

  predicate FoundOn(s: Script, p: Progress) {
    s.hasRadio && !p.offRequested && p.offConfirmed && s.isOn.Got? && s.isOn.value
  }

  // ---------------------------------------------------------------- what each answer means

  /** A wait that ends with this fault: the deadline's, or the call's own before it. */
  predicate Fails<T>(reply: Reply<T>, now: nat, deadline: nat, fault: Fault) {
    if now >= deadline || now + reply.takes > deadline then fault.Timeout?
    else reply.Threw? && reply.fault == fault
  }

  /** The same for a wait that gives up by itself after a limit. */
  predicate SightFails(seen: Reply<bool>, limit: nat, now: nat, deadline: nat, fault: Fault) {
    if now >= deadline || now + Min(seen.takes, limit) > deadline then fault.Timeout?
    else seen.takes <= limit && seen.Threw? && seen.fault == fault
  }

  /** It did give up, or saw another state, before the deadline. */
  predicate Misses(seen: Reply<bool>, limit: nat, now: nat, deadline: nat) {
    && now < deadline && now + Min(seen.takes, limit) <= deadline
    && (seen.takes > limit || (seen.Got? && !seen.value))
  }

  /** Asking for a state and waiting for it ends with this fault. */
  predicate RequestFails(request: Reply<bool>, effect: Reply<bool>, limit: nat, now: nat, deadline: nat,
                         fault: Fault) {
    || Fails(request, now, deadline, fault)
    || (InTime(request, now, deadline) && request.value
        && SightFails(effect, limit, now + request.takes, deadline, fault))
  }

  predicate Denies(request: Reply<bool>, now: nat, deadline: nat) {
    InTime(request, now, deadline) && !request.value
  }

  predicate GoesUnseen(request: Reply<bool>, effect: Reply<bool>, limit: nat, now: nat, deadline: nat) {
    InTime(request, now, deadline) && request.value && Misses(effect, limit, now + request.takes, deadline)
  }

  /** A check that stops the off half: cancelled, or else too late. */
  predicate Stops(cancelled: bool, now: nat, deadline: nat, fault: Fault) {
    if cancelled then fault.Cancellation? else now >= deadline && fault.Timeout?
  }

  predicate AsksAccess(s: Script, start: nat, deadline: nat) {
    !s.cancelledAtStart && start < deadline && !s.cachedAccess && !s.cancelledBeforeAccess
  }

  function OffDeadline(s: Script, start: nat, deadline: nat): nat {
    Min(deadline, GrantedAt(s, start) + 5000)
  }

  /** The off half ends with this fault, at one of its six checks and waits. */
  predicate EndsBy(s: Script, start: nat, deadline: nat, fault: Fault) {
    var readable := Granted(s, start, deadline) && s.hasRadio;
    || Stops(s.cancelledAtStart, start, deadline, fault)
    || (!s.cancelledAtStart && start < deadline && !s.cachedAccess && s.cancelledBeforeAccess && fault.Cancellation?)
    || (AsksAccess(s, start, deadline) && Fails(s.access, start, deadline, fault))
    || (readable && s.isOff.Threw? && s.isOff.fault == fault)
    || (readable && s.isOff.Got? && !s.isOff.value
        && Stops(s.cancelledBeforeOff, GrantedAt(s, start), deadline, fault))
    || (AsksOff(s, start, deadline)
        && RequestFails(s.off, s.offSeen, 5000, GrantedAt(s, start), OffDeadline(s, start, deadline), fault))
  }

  predicate TurnsOff(s: Script, start: nat, deadline: nat) {
    || FoundOff(s, start, deadline)
    || (AsksOff(s, start, deadline)
        && TakesEffect(s.off, s.offSeen, 5000, GrantedAt(s, start), OffDeadline(s, start, deadline)))
  }

  /** The answer of the off half, for each of its eight. */
  predicate PrimaryTold(s: Script, start: nat, deadline: nat, r: Recovery) {
    && (r.NotRequired? <==> TurnsOff(s, start, deadline))
    && (r.AccessDenied? <==> AsksAccess(s, start, deadline) && Denies(s.access, start, deadline))
    && (r.RadioUnavailable? <==> Granted(s, start, deadline) && !s.hasRadio)
    && (r.TurnOffDenied? <==>
          AsksOff(s, start, deadline) && Denies(s.off, GrantedAt(s, start), OffDeadline(s, start, deadline)))
    && (r.TurnOffTimedOut? <==>
          AsksOff(s, start, deadline)
          && GoesUnseen(s.off, s.offSeen, 5000, GrantedAt(s, start), OffDeadline(s, start, deadline)))
    && (r.OperationTimedOut? <==> EndsBy(s, start, deadline, Timeout))
    && (r.RecoveryCancelled? <==> EndsBy(s, start, deadline, Cancellation))
    && (r.UnexpectedFailure? <==> EndsBy(s, start, deadline, OtherFault))
    && !r.Succeeded? && !r.TurnOnDenied? && !r.TurnOnTimedOut?
  }

  /** What the restore half finds: Off was requested, or the radio was off by itself. */
  datatype Found = Nothing | Requested | OffAlready

  function FoundBy(s: Script, start: nat, deadline: nat): Found {
    if AsksOff(s, start, deadline) then Requested
    else if FoundOff(s, start, deadline) then OffAlready
    else Nothing
  }

  predicate SendsOn(s: Script, found: Found) {
    found.Requested? || (found.OffAlready? && s.isOn.Got? && !s.isOn.value)
  }

  predicate TurnsOn(s: Script, found: Found) {
    if SendsOn(s, found) then TakesEffect(s.on, s.onSeen, 8000, 0, 8000)
    else found.OffAlready? && s.isOn.Got? && s.isOn.value
  }

  predicate OnDenied(s: Script, found: Found) {
    SendsOn(s, found) && Denies(s.on, 0, 8000)
  }

  predicate OnEndsBy(s: Script, found: Found, fault: Fault) {
    if SendsOn(s, found) then RequestFails(s.on, s.onSeen, 8000, 0, 8000, fault)
    else found.OffAlready? && s.isOn.Threw? && s.isOn.fault == fault
  }

  /** On was neither denied nor did it fail otherwise, and yet it was not seen in time. */
  predicate OnTimedOut(s: Script, found: Found) {
    || OnEndsBy(s, found, Timeout)
    || (SendsOn(s, found) && GoesUnseen(s.on, s.onSeen, 8000, 0, 8000))
  }

  predicate OnFails(s: Script, found: Found) {
    OnEndsBy(s, found, Cancellation) || OnEndsBy(s, found, OtherFault)
  }

  /** The answer of the whole transaction, for each it can give. An answer of the off half
      stands unless the radio was touched and could not be turned on again. */
  predicate AnswerTold(s: Script, start: nat, deadline: nat, r: Recovery) {
    var found := FoundBy(s, start, deadline);
    var undone := found.Requested? ==> TurnsOn(s, found);
    && (r.Succeeded? <==> TurnsOff(s, start, deadline) && TurnsOn(s, found))
    && (r.AccessDenied? <==> AsksAccess(s, start, deadline) && Denies(s.access, start, deadline))
    && (r.RadioUnavailable? <==> Granted(s, start, deadline) && !s.hasRadio)
    && (r.TurnOffDenied? <==>
          AsksOff(s, start, deadline) && undone
          && Denies(s.off, GrantedAt(s, start), OffDeadline(s, start, deadline)))
    && (r.TurnOffTimedOut? <==>
          AsksOff(s, start, deadline) && undone
          && GoesUnseen(s.off, s.offSeen, 5000, GrantedAt(s, start), OffDeadline(s, start, deadline)))
    && (r.OperationTimedOut? <==> EndsBy(s, start, deadline, Timeout) && undone)
    && (r.RecoveryCancelled? <==> EndsBy(s, start, deadline, Cancellation) && undone)
    && (r.TurnOnDenied? <==> OnDenied(s, found))
    && (r.TurnOnTimedOut? <==> OnTimedOut(s, found))
    && (r.UnexpectedFailure? <==> (EndsBy(s, start, deadline, OtherFault) && undone) || OnFails(s, found))
    && !r.NotRequired?
  }

  lemma TurnOffTells(s: Script, p: Progress, deadline: nat)
    requires Untouched(p)
    ensures
      var r := TurnOff(s, p, deadline).primary;
      && !r.AccessDenied? && !r.RadioUnavailable? && !r.Succeeded? && !r.TurnOnDenied? && !r.TurnOnTimedOut?
      && (r.NotRequired? <==> TakesEffect(s.off, s.offSeen, 5000, p.now, deadline))
      && (r.TurnOffDenied? <==> Denies(s.off, p.now, deadline))
      && (r.TurnOffTimedOut? <==> GoesUnseen(s.off, s.offSeen, 5000, p.now, deadline))
      && (r.OperationTimedOut? <==> RequestFails(s.off, s.offSeen, 5000, p.now, deadline, Timeout))
      && (r.RecoveryCancelled? <==> RequestFails(s.off, s.offSeen, 5000, p.now, deadline, Cancellation))
      && (r.UnexpectedFailure? <==> RequestFails(s.off, s.offSeen, 5000, p.now, deadline, OtherFault))
  {
  }

  lemma PrimaryTells(s: Script, start: nat, deadline: nat)
    ensures PrimaryTold(s, start, deadline, Primary(s, start, deadline).primary)
  {
    hide TurnOff, TakesEffect, GoesUnseen, RequestFails;
    var p := Progress(start, [], false, false, false, UnexpectedFailure, TurnOnTimedOut);
    var q := p.(now := GrantedAt(s, start));
    if AsksOff(s, start, deadline) {
      TurnOffTells(s, q, OffDeadline(s, start, deadline));
    }
  }

  function FoundIn(s: Script, p: Progress): Found {
    if !s.hasRadio then Nothing
    else if p.offRequested then Requested
    else if p.offConfirmed then OffAlready
    else Nothing
  }

  /** How the restore half ends, once there is something to restore. */
  predicate RestoreTold(s: Script, found: Found, p: Progress) {
    && (p.onConfirmed <==> TurnsOn(s, found))
    && (!p.onConfirmed && !found.Nothing? ==>
          && (p.onFailure.TurnOnDenied? <==> OnDenied(s, found))
          && (p.onFailure.TurnOnTimedOut? <==> OnTimedOut(s, found))
          && (p.onFailure.UnexpectedFailure? <==> OnFails(s, found)))
    && (p.onConfirmed || found.Nothing? ==> !OnDenied(s, found) && !OnTimedOut(s, found) && !OnFails(s, found))
  }

  lemma RestoreTells(s: Script, p: Progress)
    requires !p.onConfirmed && p.onFailure.TurnOnTimedOut?
    ensures RestoreTold(s, FoundIn(s, p), Restore(s, p))
  {
  }

  lemma TurnOffShape(s: Script, p: Progress, offDeadline: nat)
    requires Untouched(p) && s.hasRadio
    ensures OffHalf(s, TurnOff(s, p, offDeadline))
    ensures p.now <= TurnOff(s, p, offDeadline).now <= Max(p.now, offDeadline)
  {
  }

  lemma AccessShape(s: Script, p: Progress, allowed: bool, deadline: nat)
    requires Untouched(p)
    ensures OffHalf(s, WithAccess(s, p, allowed, deadline))
    ensures p.now <= WithAccess(s, p, allowed, deadline).now <= Max(p.now, deadline)
  {
    if s.hasRadio {
      TurnOffShape(s, p, Min(deadline, p.now + OFF_TIMEOUT_MS));
    }
  }

  lemma PrimaryShape(s: Script, start: nat, deadline: nat)
    ensures OffHalf(s, Primary(s, start, deadline))
    ensures start <= Primary(s, start, deadline).now <= Max(start, deadline)
  {
    hide WithAccess, TurnOff;
    var p := Progress(start, [], false, false, false, UnexpectedFailure, TurnOnTimedOut);
    AccessShape(s, p, true, deadline);
    var access := Bounded(s.access, start, deadline);
    var q := p.(now := start + access.takes);
    if access.Got? {
      AccessShape(s, q, access.value, deadline);
    }
  }

  lemma RestoreShape(s: Script, p: Progress)
    requires OffHalf(s, p)
    ensures
      var q := Restore(s, p);
      && q.primary == p.primary && q.offRequested == p.offRequested && q.offConfirmed == p.offConfirmed
      && (q.commands == p.commands || q.commands == p.commands + [On])
      && (p.offRequested ==> q.commands == p.commands + [On])
      && (q.onConfirmed ==> p.offRequested || p.offConfirmed)
      && (q.onFailure.TurnOnTimedOut? || q.onFailure.TurnOnDenied? || q.onFailure.UnexpectedFailure?)
      && p.now <= q.now <= p.now + RESTORE_TIMEOUT_MS
  {
  }

  lemma HalvesMeet(s: Script, start: nat, deadline: nat)
    ensures
      var p := Primary(s, start, deadline);
      && (p.offRequested <==> AsksOff(s, start, deadline))
      && (p.offConfirmed <==> TurnsOff(s, start, deadline))
      && FoundIn(s, p) == FoundBy(s, start, deadline)
  {
    PrimaryTells(s, start, deadline);
    PrimaryShape(s, start, deadline);
    hide TurnOff, TakesEffect;
    var p := Progress(start, [], false, false, false, UnexpectedFailure, TurnOnTimedOut);
    var q := p.(now := GrantedAt(s, start));
    if AsksOff(s, start, deadline) {
      RequestsOff(s, q, OffDeadline(s, start, deadline));
    }
  }

  lemma RequestsOff(s: Script, p: Progress, deadline: nat)
    ensures TurnOff(s, p, deadline).offRequested
  {
  }

  lemma OutcomeTells(s: Script, start: nat, deadline: nat)
    ensures AnswerTold(s, start, deadline, Outcome(s, start, deadline))
  {
    var p := Primary(s, start, deadline);
    PrimaryShape(s, start, deadline);
    PrimaryTells(s, start, deadline);
    HalvesMeet(s, start, deadline);
    RestoreShape(s, p);
    RestoreTells(s, p);
    hide Primary, Restore, TakesEffect, RequestFails, GoesUnseen, Granted, EndsBy, TurnsOff, OnEndsBy;
  }

  /** For every pattern of failures, denials, timeouts and cancellations: at most one Off
      and one On, in that order; an Off that may have been sent is always followed by an
      On; Success exactly when both transitions were confirmed; NotRequired never; an
      unconfirmed On is reported as an On failure whatever the off half met; and the waits
      end by the primary deadline (or at once) plus the restore budget. */
  lemma TransactionGuarantees(s: Script, start: nat, deadline: nat)
    ensures
      var p := Final(s, start, deadline);
      var r := Outcome(s, start, deadline);
      && (p.commands == [] || p.commands == [On] || p.commands == [Off, On])
      && (p.offRequested <==> p.commands == [Off, On])
      && (r.Succeeded? <==> p.offConfirmed && p.onConfirmed)
      && !r.NotRequired?
      && ((p.offRequested || p.offConfirmed) && !p.onConfirmed ==>
            r.TurnOnTimedOut? || r.TurnOnDenied? || r.UnexpectedFailure?)
      && (r.TurnOnTimedOut? || r.TurnOnDenied? ==> (p.offRequested || p.offConfirmed) && !p.onConfirmed)
      && p.now <= Max(start, deadline) + 8000
    ensures AnswerTold(s, start, deadline, Outcome(s, start, deadline))
  {
    PrimaryShape(s, start, deadline);
    RestoreShape(s, Primary(s, start, deadline));
    OutcomeTells(s, start, deadline);
    hide *;
  }

  /** The coroutine's first try block. */
  method RunOffHalf(s: Script, start: nat, deadline: nat) returns (p: Progress)
    ensures p == Primary(s, start, deadline)
    ensures p.offRequested <==> AsksOff(s, start, deadline)
    ensures p.commands == if p.offRequested then [Off] else []
    ensures p.offConfirmed <==>
              || FoundOff(s, start, deadline)
              || (AsksOff(s, start, deadline)
                  && var at := GrantedAt(s, start);
                     TakesEffect(s.off, s.offSeen, OFF_TIMEOUT_MS, at, Min(deadline, at + OFF_TIMEOUT_MS)))
    ensures p.primary.NotRequired? <==> p.offConfirmed
    ensures PrimaryTold(s, start, deadline, p.primary)
    ensures !p.onConfirmed && start <= p.now <= Max(start, deadline)
  {
    PrimaryShape(s, start, deadline);
    PrimaryTells(s, start, deadline);
    hide TakesEffect, WithAccess, TurnOff, PrimaryTold;
    p := Progress(start, [], false, false, false, UnexpectedFailure, TurnOnTimedOut);
    var fault := Check(s.cancelledAtStart, p.now, deadline);
    if fault.Some? {
      return p.(primary := PrimaryFault(fault.value));
    }
    var allowed := s.cachedAccess;
    if !s.cachedAccess {
      fault := Check(s.cancelledBeforeAccess, p.now, deadline);
      if fault.Some? {
        return p.(primary := PrimaryFault(fault.value));
      }
      var access := Bounded(s.access, p.now, deadline);
      p := p.(now := p.now + access.takes);
      if access.Threw? {
        return p.(primary := PrimaryFault(access.fault));
      }
      allowed := access.value;
    }
    p := TryOff(s, p, allowed, deadline);
  }

  /** The off half once access was asked for: Off goes out only to a readable radio that is on. */
  method TryOff(s: Script, before: Progress, allowed: bool, deadline: nat) returns (p: Progress)
    requires Untouched(before)
    ensures p == WithAccess(s, before, allowed, deadline)
    ensures
      var readable := allowed && s.hasRadio && s.isOff.Got?;
      && (p.offRequested <==> readable && !s.isOff.value && !s.cancelledBeforeOff && before.now < deadline)
      && (p.offConfirmed <==>
            || (readable && s.isOff.value)
            || (p.offRequested
                && TakesEffect(s.off, s.offSeen, OFF_TIMEOUT_MS, before.now,
                               Min(deadline, before.now + OFF_TIMEOUT_MS))))
  {
    hide TakesEffect, TurnOff;
    p := before;
    if !allowed {
      p := p.(primary := AccessDenied);
    } else if !s.hasRadio {
      p := p.(primary := RadioUnavailable);
    } else if s.isOff.Threw? {
      p := p.(primary := PrimaryFault(s.isOff.fault));
    } else if s.isOff.value {
      p := p.(offConfirmed := true, primary := NotRequired);
    } else {
      var fault := Check(s.cancelledBeforeOff, p.now, deadline);
      if fault.Some? {
        p := p.(primary := PrimaryFault(fault.value));
      } else {
        p := RequestOff(s, p, Min(deadline, p.now + OFF_TIMEOUT_MS));
      }
    }
  }

  /** Off counts as sent as soon as it is asked for, and as confirmed only when it was allowed
      and seen in time. */
  method RequestOff(s: Script, before: Progress, offDeadline: nat) returns (p: Progress)
    requires Untouched(before)
    ensures p == TurnOff(s, before, offDeadline)
    ensures p.offRequested && p.commands == before.commands + [Off]
    ensures p.offConfirmed <==> TakesEffect(s.off, s.offSeen, OFF_TIMEOUT_MS, before.now, offDeadline)
    ensures p.primary.NotRequired? <==> p.offConfirmed
    ensures p.primary.TurnOffDenied? <==> Denies(s.off, before.now, offDeadline)
    ensures before.now <= p.now <= Max(before.now, offDeadline)
  {
    p := before.(offRequested := true, commands := before.commands + [Off]);
    var off := Bounded(s.off, p.now, offDeadline);
    p := p.(now := p.now + off.takes);
    if off.Threw? {
      return p.(primary := PrimaryFault(off.fault));
    }
    if !off.value {
      return p.(primary := TurnOffDenied);
    }
    var seen := Bounded(Limited(s.offSeen, OFF_TIMEOUT_MS), p.now, offDeadline);
    p := p.(now := p.now + seen.takes);
    if seen.Threw? {
      return p.(primary := PrimaryFault(seen.fault));
    }
    p := p.(offConfirmed := seen.value, primary := if seen.value then NotRequired else TurnOffTimedOut);
  }

  lemma RestoreSends(s: Script, before: Progress)
    requires !before.onConfirmed
    ensures
      var p := Restore(s, before);
      && p.commands == before.commands + (if AsksOn(s, before) then [On] else [])
      && (p.onConfirmed <==>
            if AsksOn(s, before)
            then TakesEffect(s.on, s.onSeen, ON_TIMEOUT_MS, before.now, before.now + RESTORE_TIMEOUT_MS)
            else FoundOn(s, before))
      && before.now <= p.now <= before.now + RESTORE_TIMEOUT_MS
  {
  }

  /** The coroutine's second try block, which ignores the attempt's cancellation. */
  method RunOnHalf(s: Script, before: Progress) returns (p: Progress)
    requires !before.onConfirmed
    ensures p == Restore(s, before)
    ensures before.onFailure.TurnOnTimedOut? ==> RestoreTold(s, FoundIn(s, before), p)
    ensures p.commands == before.commands + (if AsksOn(s, before) then [On] else [])
    ensures s.hasRadio && before.offRequested ==> AsksOn(s, before)
    ensures p.onConfirmed <==>
              if AsksOn(s, before)
              then TakesEffect(s.on, s.onSeen, ON_TIMEOUT_MS, before.now, before.now + RESTORE_TIMEOUT_MS)
              else FoundOn(s, before)
    ensures before.now <= p.now <= before.now + RESTORE_TIMEOUT_MS
  {
    if before.onFailure.TurnOnTimedOut? {
      RestoreTells(s, before);
    }
    RestoreSends(s, before);
    assert s.hasRadio && before.offRequested ==> AsksOn(s, before);
    hide *;
    p := TurnOnAgain(s, before);
  }

  /** The block itself. */
  method TurnOnAgain(s: Script, before: Progress) returns (p: Progress)
    requires !before.onConfirmed
    ensures p == Restore(s, before)
  {
    p := before;
    if !s.hasRadio || !(p.offRequested || p.offConfirmed) {
      return;
    }
    if !p.offRequested && s.isOn.Threw? {
      return p.(onFailure := OnFault(s.isOn.fault));
    }
    if !p.offRequested && s.isOn.value {
      return p.(onConfirmed := true);
    }
    var restoreDeadline := p.now + RESTORE_TIMEOUT_MS;
    var on := Bounded(s.on, p.now, restoreDeadline);
    p := p.(now := p.now + on.takes, commands := p.commands + [On]);
    if on.Threw? {
      return p.(onFailure := OnFault(on.fault));
    }
    if !on.value {
      return p.(onFailure := TurnOnDenied);
    }
    var seen := Bounded(Limited(s.onSeen, ON_TIMEOUT_MS), p.now, restoreDeadline);
    p := p.(now := p.now + seen.takes);
    if seen.Threw? {
      return p.(onFailure := OnFault(seen.fault));
    }
    p := p.(onConfirmed := seen.value);
  }

  /** The whole transaction; its contract carries what the caller relies on. */
  method RunTransaction(s: Script, start: nat, deadline: nat)
    returns (result: Recovery, commands: seq<Command>, finishedAt: nat)
    ensures result == Outcome(s, start, deadline) && AnswerTold(s, start, deadline, result)
    ensures commands == Final(s, start, deadline).commands
    ensures commands == [] || commands == [On] || commands == [Off, On]
    ensures finishedAt == Final(s, start, deadline).now <= Max(start, deadline) + 8000
    ensures Off in commands <==> AsksOff(s, start, deadline)
    ensures Off in commands ==> commands == [Off, On]
  {
    var p := RunOffHalf(s, start, deadline);
    p := RunOnHalf(s, p);
    commands, finishedAt := p.commands, p.now;
    if p.offConfirmed && p.onConfirmed && p.primary.NotRequired? {
      result := Succeeded;
    } else if (p.offRequested || p.offConfirmed) && !p.onConfirmed {
      result := p.onFailure;
    } else {
      result := p.primary;
    }
    TransactionGuarantees(s, start, deadline);
  }
}
