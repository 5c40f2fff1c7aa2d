/** The order in which queued requests are served, and the position shown for each. */
module RequestQueue {
  import opened Wrappers
  import opened Records
  import opened Protocol
  import opened ProtocolCore
  import opened ProtocolRequests

  /** The order of repeatedly taking and erasing FindNextConnectionRequest. */
  function ServiceOrder(queue: seq<Request>): (r: seq<Request>)
    ensures |r| == |queue|
    decreases |queue|
  {
    if queue == [] then []
    else [queue[NextIndex(queue)]] + ServiceOrder(RemoveAt(queue, NextIndex(queue)))
  }

  /** Request j is due before request i: an earlier time, or the same time and queued first. */
  predicate DueBefore(queue: seq<Request>, j: nat, i: nat)
    requires i < |queue| && j < |queue|
  {
    queue[j].notBefore < queue[i].notBefore || (queue[j].notBefore == queue[i].notBefore && j < i)
  }

  /** How many of the first n requests are due before request i. */
  function DueCount(queue: seq<Request>, i: nat, n: nat): (c: nat)
    requires i < |queue| && n <= |queue|
    ensures c <= n
  {
    if n == 0 then 0
    else DueCount(queue, i, n - 1) + (if DueBefore(queue, n - 1, i) then 1 else 0)
  }

  function Rank(queue: seq<Request>, i: nat): nat
    requires i < |queue|
  {
    DueCount(queue, i, |queue|)
  }

  // ---------------------------------------------------------------- the order is the stable sort

  /** Where index j of the queue lands once index k is erased. */
  function Shift(j: nat, k: nat): nat
    requires j != k
  {
    if j < k then j else j - 1
  }

  lemma {:induction false} CountWithout(queue: seq<Request>, i: nat, k: nat, n: nat)
    requires i < |queue| && k < |queue| && i != k && n <= |queue| && DueBefore(queue, k, i)
    ensures
      var rest := RemoveAt(queue, k);
      DueCount(queue, i, n) == if n <= k then DueCount(rest, Shift(i, k), n) else 1 + DueCount(rest, Shift(i, k), n - 1)
  {
    if n > 0 {
      CountWithout(queue, i, k, n - 1);
      var rest := RemoveAt(queue, k);
      if n - 1 != k {
        assert rest[Shift(n - 1, k)] == queue[n - 1] && rest[Shift(i, k)] == queue[i];
      }
    }
  }

  lemma {:induction false} FirstHasRankZero(queue: seq<Request>, n: nat)
    requires queue != [] && n <= |queue|
    ensures DueCount(queue, NextIndex(queue), n) == 0
  {
    if n > 0 {
      FirstHasRankZero(queue, n - 1);
    }
  }

  lemma FirstServed(queue: seq<Request>)
    requires queue != []
    ensures ServiceOrder(queue) == [queue[NextIndex(queue)]] + ServiceOrder(RemoveAt(queue, NextIndex(queue)))
    ensures forall i :: 0 <= i < |queue| && i != NextIndex(queue) ==> DueBefore(queue, NextIndex(queue), i)
  {
    hide ServiceOrder, RemoveAt;
    assert ServiceOrder(queue)
      == [queue[NextIndex(queue)]] + ServiceOrder(RemoveAt(queue, NextIndex(queue))) by { Unfolded(queue); }
  }

  lemma Unfolded(queue: seq<Request>)
    requires queue != []
    ensures ServiceOrder(queue) == [queue[NextIndex(queue)]] + ServiceOrder(RemoveAt(queue, NextIndex(queue)))
  {
  }

  /** Every request is served exactly at its rank. */
  lemma {:induction false} ServedAtRank(queue: seq<Request>, i: nat)
    requires i < |queue|
    ensures Rank(queue, i) < |queue| && ServiceOrder(queue)[Rank(queue, i)] == queue[i]
    decreases |queue|
  {
    hide ServiceOrder, DueCount, NextIndex, RemoveAt, DueBefore;
    var k := NextIndex(queue);
    FirstServed(queue);
    if i == k {
      FirstHasRankZero(queue, |queue|);
    } else {
      CountWithout(queue, i, k, |queue|);
      ServedAtRank(RemoveAt(queue, k), Shift(i, k));
      assert RemoveAt(queue, k)[Shift(i, k)] == queue[i];
    }
  }

  lemma {:induction false} CountGrows(queue: seq<Request>, j: nat, i: nat, n: nat)
    requires i < |queue| && j < |queue| && n <= |queue| && DueBefore(queue, j, i)
    ensures DueCount(queue, j, n) + (if j < n then 1 else 0) <= DueCount(queue, i, n)
  {
    if n > 0 {
      CountGrows(queue, j, i, n - 1);
    }
  }

  /** The order is the stable sort by notBefore: ranks agree with time, and with the queue's
      own order on ties. */
  lemma RanksAreStable(queue: seq<Request>, i: nat, j: nat)
    requires i < |queue| && j < |queue| && i != j
    ensures Rank(queue, j) < Rank(queue, i) <==> DueBefore(queue, j, i)
  {
    if DueBefore(queue, j, i) {
      CountGrows(queue, j, i, |queue|);
    } else {
      CountGrows(queue, i, j, |queue|);
    }
  }

  /** Serving loses and invents nothing. */
  lemma {:induction false} ServesEveryRequestOnce(queue: seq<Request>)
    ensures multiset(ServiceOrder(queue)) == multiset(queue)
    decreases |queue|
  {
    if queue != [] {
      var k := NextIndex(queue);
      var rest := RemoveAt(queue, k);
      ServesEveryRequestOnce(rest);
      RemovedOnce(queue, k);
      assert ServiceOrder(queue) == [queue[k]] + ServiceOrder(rest);
      hide *;
    }
  }

  lemma RemovedOnce<T>(s: seq<T>, k: nat)
    requires k < |s|
    ensures multiset(s) == multiset([s[k]]) + multiset(RemoveAt(s, k))
  {
    assert s == s[..k] + ([s[k]] + s[k + 1..]);
  }

  // ---------------------------------------------------------------- the position on the row

  /** The position of a queued device is its place in the order of service; of any other, 1. */
  method ConnectionQueuePosition(queue: seq<Request>, d: DeviceId) returns (position: nat)
    ensures !Queued(queue, d) ==> position == 1
    ensures Queued(queue, d) ==>
              && 1 <= position <= |queue|
              && ServiceOrder(queue)[position - 1] == queue[QueueIndex(queue, d)]
              && ServiceOrder(queue)[position - 1].device == d
  {
    var mine := 0;
    while mine < |queue| && queue[mine].device != d
      invariant mine <= |queue|
      invariant forall j :: 0 <= j < mine ==> queue[j].device != d
    {
      mine := mine + 1;
    }
    if mine == |queue| {
      return 1;
    }
    hide ServiceOrder, QueueIndex, Queued;
    position := 1;
    var it := 0;
    while it < |queue|
      invariant it <= |queue|
      invariant position == 1 + DueCount(queue, mine, it)
    {
      if it != mine {
        if queue[it].notBefore < queue[mine].notBefore || (queue[it].notBefore == queue[mine].notBefore && it < mine) {
          position := position + 1;
        }
      }
      it := it + 1;
    }
    FirstOfDevice(queue, d, mine);
    ServedAtRank(queue, mine);
    hide ServiceOrder, DueCount, QueueIndex;
  }

  lemma FirstOfDevice(queue: seq<Request>, d: DeviceId, i: nat)
    requires i < |queue| && queue[i].device == d && forall j :: 0 <= j < i ==> queue[j].device != d
    ensures Queued(queue, d) && QueueIndex(queue, d) == i
  {
  }

  /** A click on a queued device overtakes every deferred retry. */
  lemma ClickOvertakesDeferredRetries(w: World, d: DeviceId, hasSnapshot: bool, mode: Mode, j: nat)
    requires !Refused(w, d, mode) && !mode.Automatic?
    requires Queued(w.queue, d) && j < |w.queue| && w.queue[j].device != d && w.queue[j].notBefore > 0
    ensures
      var queue := Enqueue(w, d, hasSnapshot, mode, None).queue;
      var i := QueueIndex(w.queue, d);
      && |queue| == |w.queue| && i < |queue| && queue[i].device == d && queue[j] == w.queue[j]
      && Rank(queue, i) < Rank(queue, j)
  {
    var queue := Enqueue(w, d, hasSnapshot, mode, None).queue;
    var i := QueueIndex(w.queue, d);
    PromotedQueue(w, d, hasSnapshot, mode);
    hide Enqueue;
    RanksAreStable(queue, j, i);
  }

  lemma PromotedQueue(w: World, d: DeviceId, hasSnapshot: bool, mode: Mode)
    requires Admitted(w, d, mode) && !mode.Automatic? && Queued(w.queue, d)
    ensures
      var queue := Enqueue(w, d, hasSnapshot, mode, None).queue;
      var i := QueueIndex(w.queue, d);
      i < |w.queue| && queue == w.queue[i := queue[i]] && queue[i].device == d && queue[i].notBefore == 0
  {
    CloseEffect(w, d, None, true);
    var v := if mode.Forced? then CloseSession(w, d, None, true) else w;
    hide CloseSession;
    PlacedQueue(v, d, hasSnapshot, mode);
    hide Place, QueueIndex;
  }

  lemma PlacedQueue(w: World, d: DeviceId, hasSnapshot: bool, mode: Mode)
    requires !mode.Automatic? && Queued(w.queue, d)
    ensures
      var queue := Place(w, d, hasSnapshot, mode, None).queue;
      var i := QueueIndex(w.queue, d);
      i < |w.queue| && queue == w.queue[i := queue[i]] && queue[i].device == d && queue[i].notBefore == 0
  {
  }
}
