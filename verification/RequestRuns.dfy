/** What whole runs owe the requests in them. */
module RequestRuns {
  import opened Wrappers
  import opened Records
  import opened Protocol
  import opened ProtocolCore
  import opened ProtocolSteps
  import opened ProtocolRuns
  import opened ProtocolHistory
  import opened ProtocolRequests
  import opened RequestLife

  /** No run ever has an Automatic request in line for a device that went quiet by itself. */
  lemma {:induction false} EveryStateIsUnmuted(ws: seq<World>, es: seq<Event>, i: nat)
    requires IsRun(ws, es) && i < |ws|
    ensures Unmuted(ws[i])
  {
    hide *;
    RunLength(ws, es);
    if i == 0 {
      UnmutedInitially(ws[0]);
    } else {
      EveryStateIsUnmuted(ws, es, i - 1);
      EveryStateIsSafe(ws, es, i - 1);
      StepAt(ws, es, i - 1);
      UnmutedStep(ws[i - 1], es[i - 1]);
    }
  }

  // ---------------------------------------------------------------- retries

  /** In every run a turn ends with a retry exactly when its attempt earned one. */
  lemma RetriesExactly(ws: seq<World>, es: seq<Event>, i: nat)
    requires IsRun(ws, es) && i < |es| && es[i].AttemptDone?
    ensures TurnOver(ws[i]) && i + 1 < |ws|
    ensures EndsTurn(ws[i], ws[i + 1], ws[i].worker.request, TurnResult(ws[i]), EarnsRetry(ws[i]), es[i].now)
  {
    hide *;
    RunLength(ws, es);
    StepAt(ws, es, i);
    EveryStateIsSafe(ws, es, i);
    EveryStateIsUnmuted(ws, es, i);
    TurnEndsExactly(ws[i], es[i]);
  }

  /** An attempt whose turn ended without a retry is over: no request with its id is live in any
      later state. */
  lemma EndedForGood(ws: seq<World>, es: seq<Event>, i: nat, j: nat, r: Request)
    requires IsRun(ws, es) && i < j < |ws| && es[i].AttemptDone? && TurnOver(ws[i]) && !EarnsRetry(ws[i])
    requires LiveRequest(ws[j], r)
    ensures r.attemptId != ws[i].worker.request.attemptId
  {
    hide *;
    RunLength(ws, es);
    StepAt(ws, es, i);
    EveryStateIsSafe(ws, es, i);
    RetriesExactly(ws, es, i);
    TurnRuns(ws[i]);
    NotRetried(ws[i], ws[i + 1], es[i]);
    if r.attemptId == ws[i].worker.request.attemptId {
      IdIsOld(ws[i], es[i]);
      var q := AttemptsNeverRegress(ws, es, i + 1, j, r);
      SameId(q, r);
      NoneIsLeft(ws[i], es[i], q);
      assert false;
    }
  }

  /** In particular an attempt that was denied by the system, succeeded or was cancelled is never
      tried again. */
  lemma FinalAnswersAreFinal(ws: seq<World>, es: seq<Event>, i: nat, j: nat, r: Request)
    requires IsRun(ws, es) && i < j < |ws| && es[i].AttemptDone? && ws[i].worker.Running? && ws[i].worker.pc.Returned?
    requires var result := ws[i].worker.pc.result; result.DeniedBySystem? || result.Success? || result.Cancelled?
    requires LiveRequest(ws[j], r)
    ensures r.attemptId != ws[i].worker.request.attemptId
  {
    hide IsRun, LiveRequest;
    EndedForGood(ws, es, i, j, r);
  }

  // ---------------------------------------------------------------- the life of a request

  /** No request is ever lost: from any state of any run on, it stays in line or in flight under
      its id, with its device, generation, mode and flags, until the shutdown clears it, a click
      on its device while it is queued disconnects or overrides it, or a turn of its own ends
      without earning a retry. */
  lemma {:induction false} RequestsAreNotLost(ws: seq<World>, es: seq<Event>, i: nat, j: nat, r: Request)
    returns (q: Request)
    requires IsRun(ws, es) && i <= j < |ws| && LiveRequest(ws[i], r)
    requires forall k :: i <= k < j ==> !EndsRequest(ws[k], es[k], r.attemptId)
    ensures LiveRequest(ws[j], q) && Grows(r, q)
    decreases j
  {
    hide *;
    if i == j {
      q := r;
      GrowsNothing(r);
    } else {
      var k := j - 1;
      RunLength(ws, es);
      q := RequestsAreNotLost(ws, es, i, k, r);
      StepAt(ws, es, k);
      EveryStateIsSafe(ws, es, k);
      EveryStateIsUnmuted(ws, es, k);
      SameId(r, q);
      RequestLives(ws[k], es[k], q);
      var q' := LivingRequest(ws[j], q);
      GrowsTwice(r, q, q');
      q := q';
    }
  }

  /** A request that is live in some state of a run is live in a later one exactly when nothing in
      between was one of the ways a request ends. */
  lemma LiveUntilEnded(ws: seq<World>, es: seq<Event>, i: nat, j: nat, r: Request)
    requires IsRun(ws, es) && i <= j < |ws| && LiveRequest(ws[i], r)
    ensures |ws| == |es| + 1
    ensures LiveAs(ws[j], r.attemptId) <==> forall k :: i <= k < j ==> !EndsRequest(ws[k], es[k], r.attemptId)
  {
    hide *;
    RunLength(ws, es);
    if forall k :: i <= k < j ==> !EndsRequest(ws[k], es[k], r.attemptId) {
      var q := RequestsAreNotLost(ws, es, i, j, r);
      SameId(r, q);
      LiveHasId(ws[j], q);
    } else {
      var k :| i <= k < j && EndsRequest(ws[k], es[k], r.attemptId);
      if LiveAs(ws[j], r.attemptId) {
        var q := IdIsLive(ws[j], r.attemptId);
        GoneForGood(ws, es, i, k, j, r, q);
        assert false;
      }
    }
  }

  lemma GoneForGood(ws: seq<World>, es: seq<Event>, i: nat, k: nat, j: nat, r: Request, q: Request)
    requires IsRun(ws, es) && i <= k < j < |ws| && LiveRequest(ws[i], r) && LiveRequest(ws[j], q)
    requires EndsRequest(ws[k], es[k], r.attemptId)
    ensures q.attemptId != r.attemptId
  {
    hide *;
    RunLength(ws, es);
    StepAt(ws, es, k);
    EveryStateIsSafe(ws, es, i);
    EveryStateIsSafe(ws, es, k);
    EveryStateIsUnmuted(ws, es, k);
    LiveIdIsOld(ws[i], r);
    IdsGrowOverRuns(ws, es, i, k + 1);
    if q.attemptId == r.attemptId {
      var p := AttemptsNeverRegress(ws, es, k + 1, j, q);
      SameId(p, q);
      EndedIsGone(ws[k], es[k], r.attemptId, p);
      assert false;
    }
  }

  // ---------------------------------------------------------------- Forced and Automatic requests

  /** A Forced attempt that never started a preparation goes into one as soon as it is past its
      checks, and that one may interrupt whatever is playing. */
  lemma ForcedInterruptsFirst(ws: seq<World>, es: seq<Event>, i: nat)
    requires IsRun(ws, es) && i < |es| && ComesToPrepare(es[i], ws[i + 1])
    requires ws[i].worker.Running? && ws[i].worker.request.mode.Forced?
    requires Count(History(ws, es, i), PreparationStarted, ws[i].worker.request.attemptId) == 0
    ensures ws[i + 1].worker.Running? && ws[i + 1].worker.pc == EnteringRecovery(true)
  {
    hide *;
    RunLength(ws, es);
    StepAt(ws, es, i);
    EveryStateIsSafe(ws, es, i);
    EveryStateIsSafe(ws, es, i + 1);
    HistoryTells(ws, es, i);
    NotYetReleased(ws[i], History(ws, es, i));
    PreparesNow(ws[i], es[i]);
  }

  /** An Automatic request for a device that counted as prepared when it was accepted never starts
      a preparation, through all its retries: the radio is left alone in the background. */
  lemma {:induction false} AutomaticSparesPrepared(ws: seq<World>, es: seq<Event>, i: nat, j: nat, r: Request)
    requires IsRun(ws, es) && i < j < |ws| && LiveRequest(ws[i + 1], r)
    requires r.attemptId > ws[i].lastAttempt && r.mode.Automatic?
    requires Since(History(ws, es, i), PreparationSucceeded, PreparationStarted, r.device)
    ensures |ws| == |es| + 1 && Count(History(ws, es, j), PreparationStarted, r.attemptId) == 0
    decreases j
  {
    hide *;
    RunLength(ws, es);
    FreshRequests(ws, es, i, r);
    AutomaticIsDirect(r);
    var k := j - 1;
    HistoryAt(ws, es, j);
    StepAt(ws, es, k);
    EveryStateIsSafe(ws, es, k);
    EveryStateIsSafe(ws, es, i + 1);
    if k == i {
      AttemptIsOld(ws[k]);
    } else {
      AutomaticSparesPrepared(ws, es, i, k, r);
      if InFlight(ws[k], r.attemptId) {
        LiveIdIsOld(ws[i + 1], r);
        FlightIsLive(ws[k], r.attemptId);
        var p := AttemptsNeverRegress(ws, es, i + 1, k, ws[k].worker.request);
        SameId(p, ws[k].worker.request);
        LiveIsUnique(ws[i + 1], p, r);
      }
    }
    NoStartMark(ws[k], es[k], History(ws, es, k), r.attemptId);
  }
}
