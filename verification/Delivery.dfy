/** At-least-once delivery of batches has the effect of exactly-once delivery. */
module Delivery {
  import opened Options
  import opened Reports
  import opened MergeService
  import opened Worlds
  import opened RowHistory

  /** The batch of this push has already been applied. */
  ghost predicate IsRetry(w: World, e: Event) {
    e.Push? && FindLog(w.db.logs, e.body.gateway, e.body.batch).Some?
  }

  /** The same run without the retries of applied batches. */
  ghost function WithoutRetries(s: Settings, w: World, events: seq<Event>): seq<Event>
    decreases |events|
  {
    if events == [] then []
    else
      var rest := WithoutRetries(s, Step(s, w, events[0]), events[1..]);
      if IsRetry(w, events[0]) then rest else [events[0]] + rest
  }

  /** A retry changes nothing; if it passes validation it is answered with the stored counts. */
  lemma RetryIsInert(s: Settings, w: World, e: Event)
    requires IsRetry(w, e)
    ensures Step(s, w, e) == w
    ensures Precheck(s, e.body, e.headerGateway, e.headerBatch, e.now).None? ==>
              var log := FindLog(w.db.logs, e.body.gateway, e.body.batch).value;
              OutcomeOf(s, w, e)
              == Done(w.db, w.counter, MergeResult(true, log.recordCount, log.appliedCount, log.status, []))
  {
  }

  /** Deleting every retry from any run gives the identical final world, counter, queue and replicas included. */
  lemma {:induction false} ExactlyOnce(s: Settings, w: World, events: seq<Event>)
    ensures Run(s, w, WithoutRetries(s, w, events)) == Run(s, w, events)
    decreases |events|
  {
    if events != [] {
      var e := events[0];
      ExactlyOnce(s, Step(s, w, e), events[1..]);
      if IsRetry(w, e) {
        RetryIsInert(s, w, e);
      } else {
        var rest := WithoutRetries(s, Step(s, w, e), events[1..]);
        assert WithoutRetries(s, w, events)[1..] == rest;
      }
    }
  }

  /** No retry is left: every batch is applied at most once in the reduced run. */
  lemma {:induction false} NoRetriesLeft(s: Settings, w: World, events: seq<Event>)
    ensures var kept := WithoutRetries(s, w, events); WithoutRetries(s, w, kept) == kept
    decreases |events|
  {
    if events != [] {
      var e := events[0];
      NoRetriesLeft(s, Step(s, w, e), events[1..]);
      if IsRetry(w, e) {
        RetryIsInert(s, w, e);
      } else {
        var rest := WithoutRetries(s, Step(s, w, e), events[1..]);
        assert WithoutRetries(s, w, events)[1..] == rest;
      }
    }
  }

  /** Validation that succeeded once succeeds again as long as the clock does not go back. */
  lemma StillInTime(items: seq<Item>, now: Time, later: Time, maxFuture: Time)
    requires FirstTooFar(items, now, maxFuture).None? && now <= later
    ensures FirstTooFar(items, later, maxFuture).None?
  {
    forall i | 0 <= i < |items| ensures TimestampsOk(items[i], later, maxFuture) {
      assert TimestampsOk(items[i], now, maxFuture);
    }
  }

  lemma {:induction false} FoundInPrefix(logs: seq<SyncLog>, more: seq<SyncLog>, gateway: Id, batch: Id)
    requires FindLog(logs, gateway, batch).Some? && logs <= more
    ensures FindLog(more, gateway, batch) == FindLog(logs, gateway, batch)
    decreases |logs|
  {
    if !(logs[0].gateway == gateway && logs[0].batch == batch) {
      FoundInPrefix(logs[1..], more[1..], gateway, batch);
    }
  }

  lemma {:induction false} FoundLast(logs: seq<SyncLog>, log: SyncLog)
    requires FindLog(logs, log.gateway, log.batch).None?
    ensures FindLog(logs + [log], log.gateway, log.batch) == Some(log)
  {
    if logs != [] {
      assert (logs + [log])[1..] == logs[1..] + [log];
      assert FindLog(logs[1..], log.gateway, log.batch).None?;
      FoundLast(logs[1..], log);
    }
  }

  /**
   Once a batch was accepted, sending the identical body again at any later time, after any further
   events, succeeds: it is answered with the counts of the first time and nothing to triage.
   */
  lemma RetryAnsweredAlike(s: Settings, w: World, e: Event, events: seq<Event>, later: Time, fault: Option<int>)
    requires WorldInv(s, w) && e.Push? && OutcomeOf(s, w, e).Done? && e.now <= later
    ensures var w' := Run(s, Step(s, w, e), events);
            var retry := e.(now := later, fault := fault);
            var first := OutcomeOf(s, w, e).result;
            && OutcomeOf(s, w', retry)
               == Done(w'.db, w'.counter, first.(replay := true, triageIds := []))
            && Step(s, w', retry) == w'
  {
    var w1 := Step(s, w, e);
    var w' := Run(s, w1, events);
    StepKeepsInv(s, w, e);
    RowHistories(s, w1, events);
    StillInTime(e.body.reports, e.now, later, s.maxFutureSkew);
    if FindLog(w.db.logs, e.body.gateway, e.body.batch).None? {
      FoundLast(w.db.logs, w1.db.logs[|w.db.logs|]);
    }
    FoundInPrefix(w1.db.logs, w'.db.logs, e.body.gateway, e.body.batch);
  }
}
