/** ConnectionCreation.hpp: a connection is created on a worker, then taken or closed. */
module ConnectionCreation {
  import opened Wrappers
  import opened Records

  // A synchronous driver call runs on a background worker and its result is handed to the
  // attempt that asked for it, or closed by the worker. Worker and caller synchronise on one
  // mutex; each locked region is one step here.

  /** What the driver call produced. */
  datatype Outcome = Created(link: LinkId) | NoConnection | DriverError

  /** E_PENDING until the worker delivers. */
  datatype Error = Pending | NoError | Failed

  /** Where the worker is. Closing holds the connection the worker must dispose of. */
  datatype Stage = Scheduled | Calling | Parked | Closing(unclaimed: Option<LinkId>) | Ended

  datatype Creation = Creation(
    device: DeviceId,
    stage: Stage,
    connection: Option<LinkId>,
    error: Error,
    abandoned: bool,
    claimed: bool)
  {
    predicate Finished() { stage.Ended? }
    predicate Ready() { !stage.Scheduled? && !stage.Calling? }
    predicate Released() { abandoned || claimed }

    /** The link this creation still answers for. */
    function Held(): Option<LinkId> {
      if stage.Closing? then stage.unclaimed else connection
    }
  }

  datatype TakeResult = TakeCancelled | TakeFailed | Taken(connection: Option<LinkId>)

  function New(device: DeviceId): Creation {
    Creation(device, Scheduled, None, Pending, false, false)
  }

  function Abandon(c: Creation): Creation {
    c.(abandoned := true)
  }

  function Take(c: Creation): (Creation, TakeResult) {
    if c.abandoned then (c, TakeCancelled)
    else if !c.error.NoError? then (c, TakeFailed)
    else (c.(claimed := true, connection := None), Taken(c.connection))
  }

  /** The worker's first locked region: an abandoned creation never calls the driver. */
  function Check(c: Creation): Creation
    requires c.stage.Scheduled?
  {
    c.(stage := if c.abandoned then Ended else Calling)
  }

  function Deliver(c: Creation, outcome: Outcome): Creation
    requires c.stage.Calling?
  {
    match outcome
    case Created(link) => c.(stage := Parked, connection := Some(link), error := NoError)
    case NoConnection => c.(stage := Parked, connection := None, error := NoError)
    case DriverError => c.(stage := Parked, connection := None, error := Failed)
  }

  /** The locked region after the released event: an unclaimed connection comes back. */
  function Reclaim(c: Creation): Creation
    requires c.stage.Parked? && c.Released()
  {
    if c.claimed then c.(stage := Closing(None))
    else c.(stage := Closing(c.connection), connection := None)
  }

  function Finish(c: Creation): Creation
    requires c.stage.Closing?
  {
    c.(stage := Ended)
  }

  // ----- Every interleaving of one worker and its callers -----

  datatype Action = DoCheck | DoDeliver(outcome: Outcome) | DoReclaim | DoFinish | DoAbandon | DoTake

  predicate Possible(c: Creation, a: Action) {
    match a
    case DoCheck => c.stage.Scheduled?
    case DoDeliver(_) => c.stage.Calling?
    case DoReclaim => c.stage.Parked? && c.Released()
    case DoFinish => c.stage.Closing?
    case DoAbandon => true
    case DoTake => true
  }

  function Do(c: Creation, a: Action): Creation
    requires Possible(c, a)
  {
    match a
    case DoCheck => Check(c)
    case DoDeliver(outcome) => Deliver(c, outcome)
    case DoReclaim => Reclaim(c)
    case DoFinish => Finish(c)
    case DoAbandon => Abandon(c)
    case DoTake => Take(c).0
  }

  /** What happened to connections so far. */
  datatype Ledger = Ledger(created: seq<LinkId>, taken: seq<LinkId>, closed: seq<LinkId>, lateTakes: nat)

  function Record(l: Ledger, c: Creation, a: Action): Ledger
    requires Possible(c, a)
  {
    match a
    case DoDeliver(Created(link)) => l.(created := l.created + [link])
    case DoFinish => if c.stage.unclaimed.Some? then l.(closed := l.closed + [c.stage.unclaimed.value]) else l
    case DoTake =>
      var result := Take(c).1;
      if !result.Taken? then l
      else l.(taken := l.taken + (if result.connection.Some? then [result.connection.value] else []),
              lateTakes := l.lateTakes + (if c.abandoned then 1 else 0))
    case _ => l
  }

  predicate AllPossible(c: Creation, actions: seq<Action>)
    decreases |actions|
  {
    |actions| == 0 ||
    (Possible(c, actions[0]) && AllPossible(Do(c, actions[0]), actions[1..]))
  }

  function RunFrom(c: Creation, l: Ledger, actions: seq<Action>): (Creation, Ledger)
    requires AllPossible(c, actions)
    decreases |actions|
  {
    if |actions| == 0 then (c, l)
    else RunFrom(Do(c, actions[0]), Record(l, c, actions[0]), actions[1..])
  }

  /** What a creation's own fields always satisfy. */
  predicate Sound(c: Creation) {
    && (c.claimed ==> c.stage.Parked? || c.stage.Closing? || c.stage.Ended?)
    && (c.stage.Scheduled? || c.stage.Calling? ==> c.connection.None? && c.error.Pending?)
    && (c.claimed ==> c.Held().None?)
    && (c.error.Pending? ==> c.stage.Scheduled? || c.stage.Calling? || (c.stage.Ended? && c.abandoned))
    && (c.stage.Closing? || c.stage.Ended? ==> c.connection.None?)
    && (c.stage.Closing? ==> c.Released())
  }

  /** The ledger always accounts for the one connection that may exist. */
  ghost predicate Settled(c: Creation, l: Ledger) {
    && Sound(c)
    && (c.stage.Scheduled? || c.stage.Calling? ==> l.created == [])
    && l.lateTakes == 0
    && l.created == l.taken + l.closed + (if c.Held().Some? then [c.Held().value] else [])
    && |l.created| <= 1
  }

  lemma {:induction false} SettledRun(c: Creation, l: Ledger, actions: seq<Action>)
    requires Settled(c, l) && AllPossible(c, actions)
    ensures Settled(RunFrom(c, l, actions).0, RunFrom(c, l, actions).1)
    decreases |actions|
  {
    if |actions| > 0 {
      SettledRun(Do(c, actions[0]), Record(l, c, actions[0]), actions[1..]);
    }
  }

  /** In every interleaving of worker steps with any Abandon and Take calls, at most one
      connection is created; it is taken or closed by the worker but never both, no Take
      succeeds after Abandon, and once the worker is finished its fate is settled. */
  lemma CreatedConnectionHasOneFate(device: DeviceId, actions: seq<Action>)
    requires AllPossible(New(device), actions)
    ensures
      var (c, l) := RunFrom(New(device), Ledger([], [], [], 0), actions);
      && |l.created| <= 1
      && |l.taken| + |l.closed| <= |l.created|
      && l.lateTakes == 0
      && (c.Finished() ==> l.created == l.taken + l.closed)
  {
    SettledRun(New(device), Ledger([], [], [], 0), actions);
  }

  /** A creation that is ready has the driver's answer, unless it was given up before the call. */
  lemma ReadyIsDelivered(c: Creation)
    requires Sound(c) && c.Ready()
    ensures c.error.Pending? ==> c.abandoned && c.Finished()
  {
  }

  /** Once it is claimed or given up, its worker can always go on to the end. */
  lemma ReleasedGoesOn(c: Creation, outcome: Outcome)
    requires Sound(c) && (c.claimed || c.abandoned) && !c.Finished()
    ensures Possible(c, DoCheck) || Possible(c, DoDeliver(outcome)) || Possible(c, DoReclaim) || Possible(c, DoFinish)
  {
  }

  predicate StartsWorker(actions: seq<Action>, n: nat)
    requires n <= |actions|
  {
    exists i :: 0 <= i < n && actions[i].DoCheck?
  }

  /** While the worker has not looked yet, nothing but abandoning can have happened. */
  lemma {:induction false} BeforeTheCheck(c: Creation, l: Ledger, actions: seq<Action>, n: nat)
    requires c.stage.Scheduled? && Sound(c) && AllPossible(c, actions) && n <= |actions|
    requires !StartsWorker(actions, n)
    ensures AllPossible(c, actions[..n])
    ensures
      var (c', l') := RunFrom(c, l, actions[..n]);
      && c' == c.(abandoned := c'.abandoned) && l' == l && AllPossible(c', actions[n..])
      && (c'.abandoned <==> c.abandoned || exists i :: 0 <= i < n && actions[i].DoAbandon?)
      && RunFrom(c, l, actions) == RunFrom(c', l', actions[n..])
    decreases n
  {
    if n == 0 {
      assert actions[..0] == [] && actions[0..] == actions;
    } else {
      assert !actions[0].DoCheck?;
      assert Do(c, actions[0]) == c.(abandoned := c.abandoned || actions[0].DoAbandon?);
      var rest := actions[1..];
      assert forall i :: 0 <= i < n - 1 ==> rest[i] == actions[i + 1];
      BeforeTheCheck(Do(c, actions[0]), Record(l, c, actions[0]), rest, n - 1);
      assert actions[..n][1..] == rest[..n - 1] && actions[n..] == rest[n - 1..] && actions[..n][0] == actions[0];
    }
  }

  /** An ended creation without a connection stays like that. */
  lemma {:induction false} EndedStays(c: Creation, l: Ledger, actions: seq<Action>)
    requires c.stage.Ended? && c.abandoned && AllPossible(c, actions)
    ensures RunFrom(c, l, actions) == (c, l)
    decreases |actions|
  {
    if |actions| > 0 {
      assert Do(c, actions[0]) == c && Record(l, c, actions[0]) == l;
      EndedStays(c, l, actions[1..]);
    }
  }

  /** The first look decides about the driver call: a creation abandoned before it never creates a
      connection, in any continuation; one that was not goes on to the call. */
  lemma CheckDecides(device: DeviceId, actions: seq<Action>, n: nat)
    requires AllPossible(New(device), actions) && n < |actions| && actions[n].DoCheck?
    requires forall i :: 0 <= i < n ==> !actions[i].DoCheck?
    ensures
      var (c, l) := RunFrom(New(device), Ledger([], [], [], 0), actions);
      var abandoned := exists i :: 0 <= i < n && actions[i].DoAbandon?;
      if abandoned then c.Finished() && l == Ledger([], [], [], 0)
      else AllPossible(New(device).(stage := Calling), actions[n + 1..])
  {
    var none := Ledger([], [], [], 0);
    BeforeTheCheck(New(device), none, actions, n);
    var (c, l) := RunFrom(New(device), none, actions[..n]);
    var rest := actions[n..];
    assert rest[0] == actions[n] && rest[1..] == actions[n + 1..];
    if c.abandoned {
      EndedStays(Do(c, rest[0]), none, rest[1..]);
    }
  }

  /** The shared object itself. */
  class State {
    var device: DeviceId
    var stage: Stage
    var connection: Option<LinkId>
    var error: Error
    var abandoned: bool
    var claimed: bool

    function View(): Creation
      reads this
    {
      Creation(device, stage, connection, error, abandoned, claimed)
    }

    constructor (id: DeviceId)
      ensures View() == New(id)
    {
      device, stage, connection := id, Scheduled, None;
      error, abandoned, claimed := Pending, false, false;
    }

    method AbandonCreation()
      modifies this`abandoned
      ensures View() == Abandon(old(View()))
    {
      abandoned := true;
    }

    method TakeConnection() returns (result: TakeResult)
      modifies this`claimed, this`connection
      ensures (View(), result) == Take(old(View()))
      ensures result.Taken? <==> !old(abandoned) && old(error).NoError?
      ensures result.TakeCancelled? <==> old(abandoned)
      ensures result.Taken? ==> result.connection == old(connection) && claimed && connection.None?
      ensures !result.Taken? ==> View() == old(View())
    {
      if abandoned {
        return TakeCancelled;
      }
      if !error.NoError? {
        return TakeFailed;
      }
      claimed := true;
      result := Taken(connection);
      connection := None;
    }

    method WorkerCheck()
      requires stage.Scheduled?
      modifies this`stage
      ensures View() == Check(old(View()))
      ensures View() == old(View()).(stage := stage) && stage == if old(abandoned) then Ended else Calling
    {
      if abandoned {
        stage := Ended;
      } else {
        stage := Calling;
      }
    }

    method WorkerDeliver(outcome: Outcome)
      requires stage.Calling?
      modifies this`stage, this`connection, this`error
      ensures View() == Deliver(old(View()), outcome)
      ensures stage.Parked? && connection == (if outcome.Created? then Some(outcome.link) else None)
      ensures error == if outcome.DriverError? then Failed else NoError
    {
      connection := None;
      error := NoError;
      if outcome.Created? {
        connection := Some(outcome.link);
      } else if outcome.DriverError? {
        error := Failed;
      }
      stage := Parked;
    }

    method WorkerReclaim() returns (unclaimed: Option<LinkId>)
      requires stage.Parked? && (abandoned || claimed)
      modifies this`stage, this`connection
      ensures View() == Reclaim(old(View())) && View().stage == Closing(unclaimed)
      ensures unclaimed == if old(claimed) then None else old(connection)
    {
      unclaimed := None;
      if !claimed {
        unclaimed := connection;
        connection := None;
      }
      stage := Closing(unclaimed);
    }

    method WorkerFinish()
      requires stage.Closing?
      modifies this`stage
      ensures View() == Finish(old(View()))
    {
      stage := Ended;
    }
  }
}
