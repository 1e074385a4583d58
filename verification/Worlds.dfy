/**
 The server as a state machine: pushes from any gateway, pulls into per-gateway replicas, and triage
 tasks, in any interleaving. A run is a list of events; every theorem below is about all of them.
 */
module Worlds {
  import opened Options
  import opened Reports
  import opened MergeService
  import opened SyncPull
  import opened Triage

  datatype Event =
    | Push(body: Body, headerGateway: Id, headerBatch: Id, now: Time, fault: Option<int>)
    | Pull(gateway: Id, limit: int)
    | RunTask(index: nat)

  datatype World = World(db: Db, counter: int, queue: seq<seq<Id>>, replicas: map<Id, Replica>)

  const EMPTY := World(Db(map[], [], map[]), 0, [], map[])

  ghost function OutcomeOf(s: Settings, w: World, e: Event): BatchOutcome
    requires e.Push?
  {
    ApplyBatch(w.db, w.counter, s, e.body, e.headerGateway, e.headerBatch, e.now, e.fault)
  }

  /** The push route: the transaction, and after its commit the triage task. */
  ghost function PushStep(s: Settings, w: World, e: Event): World
    requires e.Push?
  {
    match OutcomeOf(s, w, e)
    case Aborted(_, counter) => w.(counter := counter)
    case Done(db, counter, result) =>
      World(db, counter, Enqueue(w.queue, result.triageIds, s.triageEnabled), w.replicas)
  }

  /** The route bounds the page size. */
  predicate LimitOk(limit: int) {
    1 <= limit <= 500
  }

  function ReplicaOf(w: World, gateway: Id): Replica {
    if gateway in w.replicas then w.replicas[gateway] else Replica(map[], 0)
  }

  ghost function PullStep(w: World, gateway: Id, limit: int): World {
    if !LimitOk(limit) then w
    else
      var rep := ReplicaOf(w, gateway);
      w.(replicas := w.replicas[gateway := Absorb(rep, PullPage(w.db.reports, rep.cursor, limit))])
  }

  ghost function TaskStep(w: World, k: nat): World {
    if k >= |w.queue| then w
    else w.(db := w.db.(reports := RunTriage(w.db.reports, w.queue[k])), queue := RemoveTask(w.queue, k))
  }

  ghost function Step(s: Settings, w: World, e: Event): World {
    match e
    case Push(_, _, _, _, _) => PushStep(s, w, e)
    case Pull(gateway, limit) => PullStep(w, gateway, limit)
    case RunTask(k) => TaskStep(w, k)
  }

  ghost function Run(s: Settings, w: World, events: seq<Event>): World
    decreases |events|
  {
    if events == [] then w else Run(s, Step(s, w, events[0]), events[1..])
  }

  // ---- The invariant of every reachable world ----

  ghost predicate WorldInv(s: Settings, w: World) {
    && DbInv(w.db, w.counter)
    && Coherent(w.db.reports)
    && (s.triageEnabled ==> PendingQueued(w.db.reports, w.queue))
    && (forall g :: g in w.replicas ==> w.replicas[g].cursor <= w.counter && Agrees(w.db.reports, w.replicas[g]))
  }

  lemma EmptyInv(s: Settings)
    ensures WorldInv(s, EMPTY)
  {
  }

  /** Pushes never disturb what a replica already agrees on: new numbers are above its cursor. */
  lemma AdvanceKeepsAgreement(t: Table, counter: int, t': Table, counter': int, touched: set<Id>, rep: Replica)
    requires Advances(t, counter, t', counter', touched) && Agrees(t, rep) && rep.cursor <= counter
    ensures Agrees(t', rep)
  {
  }

  /** Tables that differ only in what triage owns. */
  ghost predicate SamePushes(t: Table, t': Table) {
    t'.Keys == t.Keys && forall id :: id in t ==> Pushed(t'[id]) == Pushed(t[id])
  }

  lemma SamePushesKeep(t: Table, t': Table, logs: seq<SyncLog>, counter: int)
    requires SamePushes(t, t') && TableInv(t, counter) && LogsInv(t, logs, counter)
    ensures TableInv(t', counter) && LogsInv(t', logs, counter) && View(t') == View(t)
  {
    assert forall id :: id in t ==> t'[id] == t[id].(triage := t'[id].triage, score := t'[id].score);
  }

  lemma TaskKeepsDbInv(db: Db, counter: int, ids: seq<Id>)
    requires DbInv(db, counter)
    ensures SamePushes(db.reports, RunTriage(db.reports, ids))
    ensures DbInv(db.(reports := RunTriage(db.reports, ids)), counter)
    ensures View(RunTriage(db.reports, ids)) == View(db.reports)
  {
    RunTriageSpec(db.reports, ids);
    SamePushesKeep(db.reports, RunTriage(db.reports, ids), db.logs, counter);
  }

  /** A written row is left pending without a score; the others keep theirs. */
  lemma TurnCoherent(p: Progress, item: Item, gateway: Id, known: bool, fault: Option<int>)
    requires ProgressInv(p) && Coherent(p.reports)
    ensures match ItemTurn(p, item, gateway, known, fault)
            case Failed(_, _) => true
            case Running(q) => Coherent(q.reports)
  {
    ItemAdvances(p.reports, p.counter, item, gateway);
    match ApplyItem(p.reports, p.counter, item, gateway) {
      case Touched(t, _, id) =>
        assert CoherentRow(t[id]);
        assert forall j :: j in t && j != id ==> t[j] == p.reports[j];
      case Skipped(_) =>
      case Refused(_, _) =>
    }
  }

  lemma {:induction false} LoopCoherent(p: Progress, items: seq<Item>, gateway: Id, known: bool, fault: Option<int>)
    requires ProgressInv(p) && Coherent(p.reports)
    ensures match ItemLoop(p, items, gateway, known, fault)
            case Failed(_, _) => true
            case Running(q) => Coherent(q.reports)
    decreases |items|
  {
    if items != [] {
      TurnCoherent(p, items[0], gateway, known, fault);
      TurnContinues(p, items[0], gateway, known, fault);
      match ItemTurn(p, items[0], gateway, known, fault) {
        case Failed(_, _) =>
        case Running(q) => LoopCoherent(q, items[1..], gateway, known, fault);
      }
    }
  }

  lemma PushKeepsInv(s: Settings, w: World, e: Event)
    requires WorldInv(s, w) && e.Push?
    ensures WorldInv(s, PushStep(s, w, e))
  {
    BatchKeepsInv(w.db, w.counter, s, e.body, e.headerGateway, e.headerBatch, e.now, e.fault);
    match OutcomeOf(s, w, e) {
      case Aborted(_, _) =>
      case Done(db, counter, result) =>
        var touched := set id | id in result.triageIds;
        PushCoherent(s, w, e);
        forall g | g in w.replicas ensures Agrees(db.reports, w.replicas[g]) {
          AdvanceKeepsAgreement(w.db.reports, w.counter, db.reports, counter, touched, w.replicas[g]);
        }
        if s.triageEnabled {
          EnqueueCovers(w.db.reports, db.reports, w.queue, result.triageIds);
        }
    }
  }

  lemma PushCoherent(s: Settings, w: World, e: Event)
    requires WorldInv(s, w) && e.Push?
    ensures match OutcomeOf(s, w, e)
            case Aborted(_, _) => true
            case Done(db, _, _) => Coherent(db.reports)
  {
    var known := e.body.gateway in SeeGateway(w.db.gateways, e.body, e.now, s.requireAuth);
    LoopCoherent(Progress(w.db.reports, w.counter, 0, [], []), e.body.reports, e.body.gateway, known, e.fault);
  }

  lemma EnqueueCovers(t: Table, t': Table, queue: seq<seq<Id>>, ids: seq<Id>)
    requires PendingQueued(t, queue)
    requires forall id :: id in t' && id !in ids ==> id in t && t'[id] == t[id]
    ensures PendingQueued(t', Enqueue(queue, ids, true))
  {
    var queue' := Enqueue(queue, ids, true);
    forall id | id in t' && t'[id].triage.Pending? ensures InTask(queue', id) {
      if id in ids {
        assert id in queue'[|queue|];
      } else {
        var k :| 0 <= k < |queue| && id in queue[k];
        assert id in queue'[k];
      }
    }
  }

  lemma PullKeepsInv(s: Settings, w: World, gateway: Id, limit: int)
    requires WorldInv(s, w)
    ensures WorldInv(s, PullStep(w, gateway, limit))
  {
    if LimitOk(limit) {
      ReplicaAgrees(s, w, gateway);
      AbsorbKeepsReplica(w.db.reports, w.counter, ReplicaOf(w, gateway), limit);
    }
  }

  /** Every gateway's replica agrees with the table, including the empty one it starts from. */
  lemma ReplicaAgrees(s: Settings, w: World, gateway: Id)
    requires WorldInv(s, w)
    ensures Agrees(w.db.reports, ReplicaOf(w, gateway)) && ReplicaOf(w, gateway).cursor <= w.counter
  {
  }

  lemma AbsorbKeepsReplica(t: Table, counter: int, rep: Replica, limit: nat)
    requires TableInv(t, counter) && rep.cursor <= counter && Agrees(t, rep)
    ensures var rep' := Absorb(rep, PullPage(t, rep.cursor, limit));
            Agrees(t, rep') && rep'.cursor <= counter
  {
    PullKeepsAgreement(t, rep, limit);
    CursorWithin(t, counter, rep, limit);
  }

  lemma CursorWithin(t: Table, counter: int, rep: Replica, limit: nat)
    requires TableInv(t, counter) && rep.cursor <= counter
    ensures PullPage(t, rep.cursor, limit).maxSeqId <= counter
  {
    var page := PullPage(t, rep.cursor, limit);
    PageCovers(t, rep.cursor, limit);
    MaxSeqIdIsMax(page.items, rep.cursor);
  }

  lemma SamePushesAgree(t: Table, t': Table, rep: Replica)
    requires SamePushes(t, t') && Agrees(t, rep)
    ensures Agrees(t', rep)
  {
    forall id | id in t' ensures t'[id].seqId == t[id].seqId && ToPullItem(id, t'[id]) == ToPullItem(id, t[id]) {
      assert Pushed(t'[id]) == Pushed(t[id]);
    }
  }

  lemma TaskKeepsInv(s: Settings, w: World, k: nat)
    requires WorldInv(s, w)
    ensures WorldInv(s, TaskStep(w, k))
  {
    if k < |w.queue| {
      TaskKeepsDbInv(w.db, w.counter, w.queue[k]);
      TaskKeepsQueued(w.db.reports, w.queue, k);
      forall g | g in w.replicas ensures Agrees(RunTriage(w.db.reports, w.queue[k]), w.replicas[g]) {
        SamePushesAgree(w.db.reports, RunTriage(w.db.reports, w.queue[k]), w.replicas[g]);
      }
    }
  }

  lemma StepKeepsInv(s: Settings, w: World, e: Event)
    requires WorldInv(s, w)
    ensures WorldInv(s, Step(s, w, e))
  {
    match e
    case Push(_, _, _, _, _) => PushKeepsInv(s, w, e);
    case Pull(gateway, limit) => PullKeepsInv(s, w, gateway, limit);
    case RunTask(k) => TaskKeepsInv(s, w, k);
  }

  lemma {:induction false} RunKeepsInv(s: Settings, w: World, events: seq<Event>)
    requires WorldInv(s, w)
    ensures WorldInv(s, Run(s, w, events))
    decreases |events|
  {
    if events != [] {
      StepKeepsInv(s, w, events[0]);
      RunKeepsInv(s, Step(s, w, events[0]), events[1..]);
    }
  }

  lemma Reachable(s: Settings, events: seq<Event>)
    ensures WorldInv(s, Run(s, EMPTY, events))
  {
    EmptyInv(s);
    RunKeepsInv(s, EMPTY, events);
  }

  // ---- What becomes of the queue ----

  /**
   A push adds exactly one task, with the ids of its rows, if it wrote any and triage is on, and none
   otherwise; in particular none for a batch that failed or was applied before.
   */
  lemma PushQueues(s: Settings, w: World, e: Event)
    requires e.Push?
    ensures var outcome, queue := OutcomeOf(s, w, e), Step(s, w, e).queue;
            if outcome.Done? && !outcome.result.replay && s.triageEnabled && |outcome.result.triageIds| > 0
            then queue == w.queue + [outcome.result.triageIds]
            else queue == w.queue
  {
  }

  ghost predicate AllPending(t: Table) {
    forall id :: id in t ==> t[id].triage == Pending && t[id].score == None
  }

  /** With triage switched off nothing is ever queued or scored. */
  lemma {:induction false} TriageOff(s: Settings, w: World, events: seq<Event>)
    requires WorldInv(s, w) && !s.triageEnabled && w.queue == [] && AllPending(w.db.reports)
    ensures Run(s, w, events).queue == [] && AllPending(Run(s, w, events).db.reports)
    decreases |events|
  {
    if events != [] {
      var e := events[0];
      StepKeepsInv(s, w, e);
      if e.Push? {
        PushQueues(s, w, e);
        PushPending(s, w, e);
      }
      TriageOff(s, Step(s, w, e), events[1..]);
    }
  }

  lemma PushPending(s: Settings, w: World, e: Event)
    requires WorldInv(s, w) && e.Push? && AllPending(w.db.reports)
    ensures AllPending(Step(s, w, e).db.reports)
  {
    if OutcomeOf(s, w, e).Done? && !OutcomeOf(s, w, e).result.replay {
      var outcome := OutcomeOf(s, w, e);
      BatchKeepsInv(w.db, w.counter, s, e.body, e.headerGateway, e.headerBatch, e.now, e.fault);
      BatchWrites(w.db, w.counter, s, e.body, e.now, e.fault);
      WrittenPending(w.db.reports, w.counter, outcome.db.reports, outcome.counter, (set id | id in outcome.result.triageIds),
                     e.body.reports, e.body.gateway);
    }
  }

  lemma WrittenPending(t: Table, c: int, t': Table, c': int, touched: set<Id>, items: seq<Item>, gateway: Id)
    requires AllPending(t) && Advances(t, c, t', c', touched) && AllWritten(t', c, items, gateway)
    ensures AllPending(t')
  {
    forall id | id in t' ensures t'[id].triage == Pending && t'[id].score == None {
      if id in touched {
        assert WrittenFrom(t'[id], items, gateway);
      }
    }
  }

  // ---- Triage over whole runs ----

  function Workers(n: nat): seq<Event> {
    seq(n, _ => RunTask(0))
  }

  /** Letting workers take every queued task is a run, it empties the queue, and it is `Drain`. */
  lemma {:induction false} WorkersDrain(s: Settings, w: World)
    ensures var w' := Run(s, w, Workers(|w.queue|));
            w' == w.(db := w.db.(reports := Drain(w.db.reports, w.queue)), queue := [])
    decreases |w.queue|
  {
    if w.queue != [] {
      var w1 := Step(s, w, RunTask(0));
      assert RemoveTask(w.queue, 0) == w.queue[1..];
      assert Workers(|w.queue|)[1..] == Workers(|w1.queue|);
      WorkersDrain(s, w1);
    }
  }

  /**
   In every run each row is pending without a score or completed with exactly the score of its current
   content, and with triage enabled, letting the workers finish scores every row and changes nothing
   that was pushed.
   */
  lemma TriageCoherence(s: Settings, events: seq<Event>)
    ensures var w := Run(s, EMPTY, events);
            && Coherent(w.db.reports)
            && (s.triageEnabled ==>
                  var w' := Run(s, w, Workers(|w.queue|));
                  && w'.queue == [] && View(w'.db.reports) == View(w.db.reports)
                  && w'.db.reports.Keys == w.db.reports.Keys
                  && forall id :: id in w.db.reports ==> w'.db.reports[id] == Scored(w.db.reports[id]))
  {
    Reachable(s, events);
    var w := Run(s, EMPTY, events);
    if s.triageEnabled {
      WorkersDrain(s, w);
      DrainCompletes(w.db.reports, w.queue);
      ScoredViewAlike(w.db.reports, Drain(w.db.reports, w.queue));
    }
  }

  lemma ScoredViewAlike(t: Table, t': Table)
    requires t'.Keys == t.Keys && forall id :: id in t ==> t'[id] == Scored(t[id])
    ensures View(t') == View(t)
  {
  }
}
