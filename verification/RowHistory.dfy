/** What whole runs do to single rows, to sequence numbers and to timestamps. */
module RowHistory {
  import opened Options
  import opened Reports
  import opened MergeService
  import opened Triage
  import opened Worlds

  /** The rows a step rewrote: those a push names for triage. */
  ghost function WrittenBy(s: Settings, w: World, e: Event): set<Id> {
    if e.Push? && OutcomeOf(s, w, e).Done? then set id | id in OutcomeOf(s, w, e).result.triageIds else {}
  }

  ghost function WrittenIn(s: Settings, w: World, events: seq<Event>): set<Id>
    decreases |events|
  {
    if events == [] then {}
    else WrittenBy(s, w, events[0]) + WrittenIn(s, Step(s, w, events[0]), events[1..])
  }

  /** `t'` is a later state of `t` in which exactly the rows `written` were rewritten by pushes. */
  ghost predicate Later(t: Table, t': Table, written: set<Id>) {
    && t.Keys <= t'.Keys
    && t'.Keys - t.Keys <= written <= t'.Keys
    && (forall id :: id in t ==> RowEvolves(t[id], t'[id]))
    && (forall id :: id in t ==> (t[id].seqId < t'[id].seqId <==> id in written))
  }

  lemma LaterTrans(t: Table, t1: Table, s1: set<Id>, t2: Table, s2: set<Id>)
    requires Later(t, t1, s1) && Later(t1, t2, s2)
    ensures Later(t, t2, s1 + s2)
  {
    forall id | id in t ensures RowEvolves(t[id], t2[id]) && (t[id].seqId < t2[id].seqId <==> id in s1 + s2) {
      assert RowEvolves(t[id], t1[id]) && RowEvolves(t1[id], t2[id]);
    }
  }

  lemma StepLater(s: Settings, w: World, e: Event)
    requires WorldInv(s, w)
    ensures Later(w.db.reports, Step(s, w, e).db.reports, WrittenBy(s, w, e))
    ensures w.counter <= Step(s, w, e).counter && w.db.logs <= Step(s, w, e).db.logs
  {
    match e
    case Push(body, hg, hb, now, fault) =>
      BatchKeepsInv(w.db, w.counter, s, body, hg, hb, now, fault);
    case Pull(_, _) =>
    case RunTask(k) =>
      if k < |w.queue| {
        TaskLater(w.db.reports, w.queue[k]);
      }
  }

  lemma TaskLater(t: Table, ids: seq<Id>)
    ensures Later(t, RunTriage(t, ids), {})
  {
    RunTriageSpec(t, ids);
  }

  /**
   Over any run no row disappears or changes kind, its (updated_at, gateway) never decreases, its
   number grows exactly when a push rewrites it and nothing pushed changes otherwise, tombstones stay
   tombstones, and what was pushed of an SOS row never changes. Numbers and logs are only added.
   */
  lemma {:induction false} RowHistories(s: Settings, w: World, events: seq<Event>)
    requires WorldInv(s, w)
    ensures Later(w.db.reports, Run(s, w, events).db.reports, WrittenIn(s, w, events))
    ensures w.counter <= Run(s, w, events).counter && w.db.logs <= Run(s, w, events).db.logs
    decreases |events|
  {
    if events != [] {
      var w1 := Step(s, w, events[0]);
      StepLater(s, w, events[0]);
      StepKeepsInv(s, w, events[0]);
      RowHistories(s, w1, events[1..]);
      LaterTrans(w.db.reports, w1.db.reports, WrittenBy(s, w, events[0]),
                 Run(s, w, events).db.reports, WrittenIn(s, w1, events[1..]));
    }
  }

  /**
   In every run the numbers of rows and of batch logs are pairwise distinct and never exceed the
   counter, and logs are numbered in commit order, although failed batches use numbers up.
   */
  lemma NumbersDistinct(s: Settings, events: seq<Event>)
    ensures var w := Run(s, EMPTY, events);
            && SeqsWithin(w.db.reports, w.counter) && DistinctSeqs(w.db.reports)
            && LogsInv(w.db.reports, w.db.logs, w.counter)
  {
    Reachable(s, events);
  }

  /** In every run a segment has one row, and tombstones are exactly the non-SOS rows with a deletion time. */
  lemma TablesWellFormed(s: Settings, events: seq<Event>)
    ensures var t := Run(s, EMPTY, events).db.reports; UniqueSegments(t) && TombstonesMarked(t)
    ensures var t := Run(s, EMPTY, events).db.reports;
            forall kind: Kind, key: string, id: Id ::
              !kind.Sos? && key != "" && InSegment(t, kind, key, id) ==> Canonical(t, kind, key) == Some(id)
  {
    Reachable(s, events);
    var t := Run(s, EMPTY, events).db.reports;
    forall kind: Kind, key: string, id: Id | !kind.Sos? && key != "" && InSegment(t, kind, key, id)
      ensures Canonical(t, kind, key) == Some(id)
    {
      CanonicalSpec(t, kind, key);
    }
  }

  /** A failed push is as if it had not happened, except for the numbers it used. */
  lemma FailureIsInvisible(s: Settings, w: World, e: Event)
    requires WorldInv(s, w) && e.Push? && OutcomeOf(s, w, e).Aborted?
    ensures Step(s, w, e) == w.(counter := Step(s, w, e).counter)
    ensures w.counter <= Step(s, w, e).counter <= w.counter + |e.body.reports| + 1
    ensures Precheck(s, e.body, e.headerGateway, e.headerBatch, e.now).Some? ==> Step(s, w, e) == w
  {
    BatchKeepsInv(w.db, w.counter, s, e.body, e.headerGateway, e.headerBatch, e.now, e.fault);
  }

  // ---- Clock poisoning is bounded ----

  ghost predicate StampedBy(t: Table, latest: Time) {
    forall id :: id in t ==> t[id].createdAt <= latest && t[id].updatedAt <= latest
  }

  lemma TurnStampedBy(p: Progress, item: Item, gateway: Id, known: bool, fault: Option<int>, latest: Time)
    requires ProgressInv(p) && StampedBy(p.reports, latest) && item.createdAt <= latest && item.updatedAt <= latest
    ensures match ItemTurn(p, item, gateway, known, fault)
            case Failed(_, _) => true
            case Running(q) => StampedBy(q.reports, latest)
  {
    ItemAdvances(p.reports, p.counter, item, gateway);
    match ApplyItem(p.reports, p.counter, item, gateway) {
      case Touched(t, _, id) => assert forall j :: j in t && j != id ==> t[j] == p.reports[j];
      case Skipped(_) =>
      case Refused(_, _) =>
    }
  }

  lemma {:induction false} LoopStampedBy(p: Progress, items: seq<Item>, gateway: Id, known: bool, fault: Option<int>,
                                         latest: Time)
    requires ProgressInv(p) && StampedBy(p.reports, latest)
    requires forall i :: 0 <= i < |items| ==> items[i].createdAt <= latest && items[i].updatedAt <= latest
    ensures match ItemLoop(p, items, gateway, known, fault)
            case Failed(_, _) => true
            case Running(q) => StampedBy(q.reports, latest)
    decreases |items|
  {
    if items != [] {
      TurnStampedBy(p, items[0], gateway, known, fault, latest);
      TurnContinues(p, items[0], gateway, known, fault);
      match ItemTurn(p, items[0], gateway, known, fault) {
        case Failed(_, _) =>
        case Running(q) => LoopStampedBy(q, items[1..], gateway, known, fault, latest);
      }
    }
  }

  predicate Accepted(outcome: BatchOutcome) {
    outcome.Done? && !outcome.result.replay
  }

  /** The server clock of the last batch that was accepted, `clock` if none was. */
  ghost function LastAccepted(s: Settings, w: World, events: seq<Event>, clock: Time): Time
    decreases |events|
  {
    if events == [] then clock
    else
      var e := events[0];
      LastAccepted(s, Step(s, w, e), events[1..], if e.Push? && Accepted(OutcomeOf(s, w, e)) then e.now else clock)
  }

  /** The server clock does not run backwards. */
  predicate ClockAdvances(events: seq<Event>, clock: Time)
    decreases |events|
  {
    events == []
    || (if events[0].Push? then clock <= events[0].now && ClockAdvances(events[1..], events[0].now)
        else ClockAdvances(events[1..], clock))
  }

  lemma StepStampedBy(s: Settings, w: World, e: Event, clock: Time)
    requires WorldInv(s, w) && StampedBy(w.db.reports, clock + s.maxFutureSkew)
    requires e.Push? ==> clock <= e.now
    ensures StampedBy(Step(s, w, e).db.reports,
                      (if e.Push? && Accepted(OutcomeOf(s, w, e)) then e.now else clock) + s.maxFutureSkew)
  {
    match e
    case Push(body, _, _, now, fault) =>
      if Accepted(OutcomeOf(s, w, e)) {
        var known := body.gateway in SeeGateway(w.db.gateways, body, now, s.requireAuth);
        LoopStampedBy(Progress(w.db.reports, w.counter, 0, [], []), body.reports, body.gateway, known, fault,
                      now + s.maxFutureSkew);
      }
    case Pull(_, _) =>
    case RunTask(k) =>
      if k < |w.queue| {
        TaskStampedBy(w.db.reports, w.queue[k], clock + s.maxFutureSkew);
      }
  }

  lemma TaskStampedBy(t: Table, ids: seq<Id>, latest: Time)
    requires StampedBy(t, latest)
    ensures StampedBy(RunTriage(t, ids), latest)
  {
    RunTriageSpec(t, ids);
  }

  /** No row is ever stamped later than the clock of the last accepted batch plus the allowed skew. */
  lemma {:induction false} PoisoningBounded(s: Settings, w: World, events: seq<Event>, clock: Time)
    requires WorldInv(s, w) && StampedBy(w.db.reports, clock + s.maxFutureSkew)
    requires ClockAdvances(events, clock)
    ensures StampedBy(Run(s, w, events).db.reports, LastAccepted(s, w, events, clock) + s.maxFutureSkew)
    decreases |events|
  {
    if events != [] {
      var e := events[0];
      var w1 := Step(s, w, e);
      var accepted := e.Push? && Accepted(OutcomeOf(s, w, e));
      var clock' := if accepted then e.now else clock;
      StepStampedBy(s, w, e, clock);
      StepKeepsInv(s, w, e);
      if e.Push? && !accepted {
        ClockEarlier(events[1..], e.now, clock);
      }
      PoisoningBounded(s, w1, events[1..], clock');
    }
  }

  lemma {:induction false} ClockEarlier(events: seq<Event>, late: Time, early: Time)
    requires ClockAdvances(events, late) && early <= late
    ensures ClockAdvances(events, early)
    decreases |events|
  {
    if events != [] && !events[0].Push? {
      ClockEarlier(events[1..], late, early);
    }
  }

  /**
   So a gateway whose clock ran ahead cannot lock a live row: after any run, a road or supply item
   stamped later than that bound is written over the live row it is merged with.
   */
  lemma LateItemWins(s: Settings, events: seq<Event>, clock: Time, item: Item, gateway: Id)
    requires ClockAdvances(events, clock) && !item.kind.Sos?
    requires item.updatedAt > LastAccepted(s, EMPTY, events, clock) + s.maxFutureSkew
    ensures var w := Run(s, EMPTY, events);
            var t := w.db.reports;
            match ExistingRow(t, item)
            case None => true
            case Some(id) =>
              id in t && (t[id].kind == item.kind && !t[id].isTombstone ==>
                ApplyItem(t, w.counter, item, gateway)
                == Touched(t[id := WrittenRow(item, gateway, w.counter + 1)], w.counter + 1, id))
  {
    EmptyInv(s);
    PoisoningBounded(s, EMPTY, events, clock);
    if HasKey(item.segmentKey) {
      CanonicalSpec(Run(s, EMPTY, events).db.reports, item.kind, item.segmentKey.value);
    }
  }

  // ---- Refusals that last ----

  /**
   An item refused because its id belongs to a row of another kind is refused for ever after, so a
   batch carrying it can never be accepted unchanged.
   */
  lemma KindConflictLasts(s: Settings, w: World, events: seq<Event>, item: Item, gateway: Id)
    requires WorldInv(s, w)
    requires ApplyItem(w.db.reports, w.counter, item, gateway) == Refused(KindConflict(item.id), w.counter)
    ensures var w' := Run(s, w, events);
            ApplyItem(w'.db.reports, w'.counter, item, gateway) == Refused(KindConflict(item.id), w'.counter)
  {
    RowHistories(s, w, events);
    var t, t' := w.db.reports, Run(s, w, events).db.reports;
    ConflictCause(t, w.counter, item, gateway);
    assert RowEvolves(t[item.id], t'[item.id]);
    ConflictCause(t', Run(s, w, events).counter, item, gateway);
  }

  /** An item conflicts when its id is taken by another kind, unless a segment key finds its row. */
  lemma ConflictCause(t: Table, counter: int, item: Item, gateway: Id)
    ensures ApplyItem(t, counter, item, gateway) == Refused(KindConflict(item.id), counter)
            <==> item.id in t && t[item.id].kind != item.kind && (item.kind.Sos? || !HasKey(item.segmentKey))
  {
  }
}
