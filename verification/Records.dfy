/** The state records and enumerations declared in Aulay.h, and the pure request
    rules of ConnectionState.hpp. Device ids are numbers (0 is the empty id); flows,
    creations and links are numbers too, standing for the identity of shared objects. */
module Records {
  import opened Wrappers
  import opened Numbers

  type DeviceId = nat
  type LinkId = nat
  type FlowId = nat
  type CreationId = nat

  const NO_DEVICE: DeviceId := 0
  const UINT32_MAX: nat := 0xFFFF_FFFF

  datatype Phase = RecoveringBluetooth | Starting | Opening | WaitingForOpened | Connected

  datatype Mode = Automatic | Quick | Forced

  datatype Strategy = Direct | RestartBluetooth

  datatype Recovery =
    | NotRequired
    | Succeeded
    | AccessDenied
    | RadioUnavailable
    | TurnOffDenied
    | TurnOffTimedOut
    | TurnOnDenied
    | TurnOnTimedOut
    | UnexpectedFailure
    | OperationTimedOut
    | RecoveryCancelled
  {
    /** The two answers that let a connection attempt go on. */
    predicate Ready() { NotRequired? || Succeeded? }
  }

  datatype AttemptResult =
    | Cancelled
    | Success
    | BluetoothRecoveryFailed
    | DeviceUnavailable
    | StartFailed
    | OpenTimedOut
    | DeniedBySystem
    | OpenFailed
    | ClosedUnexpectedly
    | AttemptFailed
    | DeadlineExceeded

  datatype Session = Session(
    generation: nat,
    attemptId: nat,
    phase: Phase,
    link: Option<LinkId>,
    flow: Option<FlowId>)

  datatype Request = Request(
    device: DeviceId,
    hasSnapshot: bool,
    generation: nat,
    attemptId: nat,
    retryCount: nat,
    mode: Mode,
    strategy: Strategy,
    recoverAfterRemoteClose: bool,
    prepareBeforeConnect: bool,
    preparationAttempts: nat,
    preparationResult: Recovery,
    notBefore: nat)

  function SelectInitialRecoveryStrategy(mode: Mode, recoverAfterRemoteClose: bool,
                                         prepareBeforeConnect: bool): Strategy {
    if prepareBeforeConnect || mode.Forced? || (mode.Quick? && recoverAfterRemoteClose)
    then RestartBluetooth
    else Direct
  }

  function SelectRetryRecoveryStrategy(request: Request): Strategy {
    request.strategy
  }

  predicate CanRetryConnection(request: Request, result: AttemptResult) {
    if result.Success? || result.Cancelled? || result.DeniedBySystem? then false
    else if !request.strategy.RestartBluetooth? then true
    else if request.preparationAttempts >= 2 then false
    else match request.preparationResult
      case AccessDenied | TurnOffDenied | TurnOnDenied | RecoveryCancelled => false
      case _ => true
  }

  function RetryDelayMs(retry: nat): nat {
    if retry >= 11 then 300000 else 200 * Pow2(retry)
  }

  /** The request a failed attempt pushes back: same generation and attempt id, one more
      try (saturating in 32 bits), the preparation budget and its last result carried over. */
  function RetryRequest(r: Request, now: nat): Request {
    r.(hasSnapshot := false,
       retryCount := (if r.retryCount < UINT32_MAX - 1 then r.retryCount else UINT32_MAX - 1) + 1,
       strategy := SelectRetryRecoveryStrategy(r),
       notBefore := now + RetryDelayMs(r.retryCount))
  }
}
