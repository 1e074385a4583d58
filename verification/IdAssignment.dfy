/**
 Clients that use each id for one kind and one key only, across all gateways. None of their items is
 ever refused, so what a run merges can be read off what was sent, and interleaving cannot matter.
 */
module IdAssignment {
  import opened Options
  import opened Reports
  import opened MergeService
  import opened Worlds
  import opened Triage
  import opened KeyRefinement

  /** What an id is used for. */
  datatype Use = Use(kind: Kind, key: Key)

  predicate Assigned(item: Item, use: Id -> Use) {
    use(item.id) == Use(item.kind, KeyOf(item))
  }

  ghost predicate ItemsAssigned(items: seq<Item>, use: Id -> Use) {
    forall i :: 0 <= i < |items| ==> Assigned(items[i], use)
  }

  ghost predicate TableAssigned(t: Table, use: Id -> Use) {
    forall id :: id in t ==> use(id) == Use(t[id].kind, RowKey(id, t[id]))
  }

  ghost predicate AllAssigned(h: seq<Arrival>, use: Id -> Use) {
    forall i :: 0 <= i < |h| ==> Assigned(h[i].item, use)
  }

  // ---- Nothing is refused ----

  /**
   An item is refused exactly when its id is taken and leads nowhere: by a row of another kind, for an
   item merged by id, and by any row at all, for an item whose segment has no row yet.
   */
  lemma RefusedIff(t: Table, counter: int, item: Item, gateway: Id)
    ensures ApplyItem(t, counter, item, gateway).Refused?
            <==> && item.id in t
                 && if item.kind.Sos? || !HasKey(item.segmentKey) then t[item.id].kind != item.kind
                    else forall id :: !InSegment(t, item.kind, item.segmentKey.value, id)
  {
    if !item.kind.Sos? && HasKey(item.segmentKey) {
      CanonicalSpec(t, item.kind, item.segmentKey.value);
    }
  }

  lemma ItemAccepted(t: Table, counter: int, item: Item, gateway: Id, use: Id -> Use)
    requires TableInv(t, counter) && TableAssigned(t, use) && Assigned(item, use)
    ensures !ApplyItem(t, counter, item, gateway).Refused? && !NamesSegmentRow(t, item)
  {
    RefusedIff(t, counter, item, gateway);
    assert !item.kind.Sos? && HasKey(item.segmentKey) && item.id in t
           ==> InSegment(t, item.kind, item.segmentKey.value, item.id);
  }

  lemma ItemKeepsAssigned(t: Table, counter: int, item: Item, gateway: Id, use: Id -> Use)
    requires TableInv(t, counter) && TableAssigned(t, use) && Assigned(item, use)
    ensures TableAssigned(TableAfter(t, ApplyItem(t, counter, item, gateway)), use)
  {
    var outcome := ApplyItem(t, counter, item, gateway);
    ItemAdvances(t, counter, item, gateway);
    if !item.kind.Sos? {
      RoadLikeWrites(t, counter, item, gateway);
    }
    if outcome.Touched? {
      var t', id := outcome.reports, outcome.rowId;
      assert forall j :: j in t' && j != id ==> t'[j] == t[j];
      assert RowKey(id, t'[id]) == if id in t then RowKey(id, t[id]) else KeyOf(item);
    }
  }

  lemma {:induction false} LoopAccepted(p: Progress, items: seq<Item>, gateway: Id, use: Id -> Use)
    requires ProgressInv(p) && TableAssigned(p.reports, use) && ItemsAssigned(items, use)
    ensures LoopDisciplined(p, items, gateway, true, None)
    ensures ItemLoop(p, items, gateway, true, None).Running?
    ensures TableAssigned(ItemLoop(p, items, gateway, true, None).progress.reports, use)
    decreases |items|
  {
    if items != [] {
      ItemAccepted(p.reports, p.counter, items[0], gateway, use);
      ItemKeepsAssigned(p.reports, p.counter, items[0], gateway, use);
      TurnContinues(p, items[0], gateway, true, None);
      LoopAccepted(ItemTurn(p, items[0], gateway, true, None).progress, items[1..], gateway, use);
    }
  }

  // ---- What a run merges, read off what was sent ----

  ghost function Logged(logs: seq<SyncLog>): set<(Id, Id)> {
    set i | 0 <= i < |logs| :: (logs[i].gateway, logs[i].batch)
  }

  /** A push that no state of the tables can make fail, unless its items do. */
  predicate Sound(s: Settings, gateways: set<Id>, e: Event) {
    && e.Push?
    && Precheck(s, e.body, e.headerGateway, e.headerBatch, e.now).None?
    && (s.requireAuth ==> e.body.gateway in gateways)
  }

  /**
   The items of the first sound delivery of each batch, in the order sent. `gateways` are those
   provisioned, `seen` the batches logged before. No table is looked at.
   */
  ghost function SentArrivals(s: Settings, gateways: set<Id>, seen: set<(Id, Id)>, events: seq<Event>): seq<Arrival>
    decreases |events|
  {
    if events == [] then []
    else
      var e := events[0];
      if Sound(s, gateways, e) && (e.body.gateway, e.body.batch) !in seen
      then Arrivals(e.body.gateway, e.body.reports)
           + SentArrivals(s, gateways, seen + {(e.body.gateway, e.body.batch)}, events[1..])
      else SentArrivals(s, gateways, seen, events[1..])
  }

  ghost predicate Faultless(events: seq<Event>) {
    forall i :: 0 <= i < |events| && events[i].Push? ==> events[i].fault.None?
  }

  /** With authentication on, the provisioned gateways are the ones in the table. */
  ghost predicate Provisioned(s: Settings, w: World, gateways: set<Id>) {
    s.requireAuth ==> w.db.gateways.Keys == gateways
  }

  ghost predicate FirstDelivery(s: Settings, w: World, gateways: set<Id>, e: Event) {
    Sound(s, gateways, e) && (e.body.gateway, e.body.batch) !in Logged(w.db.logs)
  }

  lemma LoggedFound(logs: seq<SyncLog>, gateway: Id, batch: Id)
    ensures FindLog(logs, gateway, batch).None? <==> (gateway, batch) !in Logged(logs)
  {
    forall i | 0 <= i < |logs| ensures (logs[i].gateway, logs[i].batch) in Logged(logs) {
    }
  }

  lemma LoggedAppend(logs: seq<SyncLog>, log: SyncLog)
    ensures Logged(logs + [log]) == Logged(logs) + {(log.gateway, log.batch)}
  {
    forall x ensures x in Logged(logs + [log]) <==> x in Logged(logs) + {(log.gateway, log.batch)} {
      if x in Logged(logs) {
        var i :| 0 <= i < |logs| && x == (logs[i].gateway, logs[i].batch);
        assert (logs + [log])[i] == logs[i];
      }
      assert (logs + [log])[|logs|] == log;
    }
  }

  /** The first sound delivery of a batch is accepted, whatever the tables hold. */
  lemma FirstAccepted(s: Settings, w: World, gateways: set<Id>, e: Event, use: Id -> Use)
    requires WorldInv(s, w) && TableAssigned(w.db.reports, use) && Provisioned(s, w, gateways)
    requires FirstDelivery(s, w, gateways, e) && e.fault.None? && ItemsAssigned(e.body.reports, use)
    ensures OutcomeOf(s, w, e).Done? && !OutcomeOf(s, w, e).result.replay
    ensures StepArrivals(s, w, e) == Arrivals(e.body.gateway, e.body.reports)
    ensures var w' := Step(s, w, e);
            && TableAssigned(w'.db.reports, use) && Provisioned(s, w', gateways)
            && Logged(w'.db.logs) == Logged(w.db.logs) + {(e.body.gateway, e.body.batch)}
    ensures StepDisciplined(s, w, e)
  {
    var p := Progress(w.db.reports, w.counter, 0, [], []);
    LoggedFound(w.db.logs, e.body.gateway, e.body.batch);
    LoopAccepted(p, e.body.reports, e.body.gateway, use);
    var q := ItemLoop(p, e.body.reports, e.body.gateway, true, None).progress;
    LoggedAppend(w.db.logs, LogOf(e.body, q));
  }

  /** Every other step merges nothing. */
  lemma OthersMergeNothing(s: Settings, w: World, gateways: set<Id>, e: Event, use: Id -> Use)
    requires WorldInv(s, w) && TableAssigned(w.db.reports, use) && Provisioned(s, w, gateways)
    requires !FirstDelivery(s, w, gateways, e)
    ensures StepArrivals(s, w, e) == []
    ensures var w' := Step(s, w, e);
            && TableAssigned(w'.db.reports, use) && Provisioned(s, w', gateways)
            && Logged(w'.db.logs) == Logged(w.db.logs)
  {
    match e
    case Push(body, _, _, _, _) => LoggedFound(w.db.logs, body.gateway, body.batch);
    case Pull(_, _) =>
    case RunTask(k) =>
      if k < |w.queue| {
        TaskKeepsAssigned(w.db.reports, w.queue[k], use);
      }
  }

  lemma TaskKeepsAssigned(t: Table, ids: seq<Id>, use: Id -> Use)
    requires TableAssigned(t, use)
    ensures TableAssigned(RunTriage(t, ids), use)
  {
    RunTriageSpec(t, ids);
  }

  lemma AssignedParts(g: seq<Arrival>, h: seq<Arrival>, use: Id -> Use)
    requires AllAssigned(g + h, use)
    ensures AllAssigned(g, use) && AllAssigned(h, use)
  {
    forall i | 0 <= i < |g| ensures Assigned(g[i].item, use) {
      assert (g + h)[i] == g[i];
    }
    forall i | 0 <= i < |h| ensures Assigned(h[i].item, use) {
      assert (g + h)[|g| + i] == h[i];
    }
  }

  lemma ArrivalsAssigned(gateway: Id, items: seq<Item>, use: Id -> Use)
    requires AllAssigned(Arrivals(gateway, items), use)
    ensures ItemsAssigned(items, use)
  {
    forall i | 0 <= i < |items| ensures Assigned(items[i], use) {
      ArrivalsAt(gateway, items, i);
    }
  }

  /**
   If each id is used for one kind and key, every first sound delivery of a batch is accepted and
   nothing else is merged; the run is disciplined.
   */
  lemma {:induction false} SentIsMerged(s: Settings, w: World, gateways: set<Id>, events: seq<Event>, use: Id -> Use)
    requires WorldInv(s, w) && TableAssigned(w.db.reports, use) && Provisioned(s, w, gateways)
    requires Faultless(events) && AllAssigned(SentArrivals(s, gateways, Logged(w.db.logs), events), use)
    ensures RunArrivals(s, w, events) == SentArrivals(s, gateways, Logged(w.db.logs), events)
    ensures RunDisciplined(s, w, events)
    decreases |events|
  {
    if events != [] {
      var e := events[0];
      var w1 := Step(s, w, e);
      StepKeepsInv(s, w, e);
      if FirstDelivery(s, w, gateways, e) {
        var g := Arrivals(e.body.gateway, e.body.reports);
        var seen := Logged(w.db.logs) + {(e.body.gateway, e.body.batch)};
        AssignedParts(g, SentArrivals(s, gateways, seen, events[1..]), use);
        ArrivalsAssigned(e.body.gateway, e.body.reports, use);
        FirstAccepted(s, w, gateways, e, use);
      } else {
        OthersMergeNothing(s, w, gateways, e, use);
      }
      SentIsMerged(s, w1, gateways, events[1..], use);
    }
  }

  lemma {:induction false} OnlyHolds(h: seq<Arrival>, a: Arrival)
    ensures a in h <==> a in Only(h, KeyOf(a.item))
    decreases |h|
  {
    if h != [] {
      OnlyHolds(h[1..], a);
      assert h == [h[0]] + h[1..];
    }
  }

  lemma SameByKeyAssigned(h: seq<Arrival>, h': seq<Arrival>, use: Id -> Use)
    requires AllAssigned(h, use) && forall key :: Only(h, key) == Only(h', key)
    ensures AllAssigned(h', use)
  {
    forall i | 0 <= i < |h'| ensures Assigned(h'[i].item, use) {
      OnlyHolds(h', h'[i]);
      OnlyHolds(h, h'[i]);
    }
  }

  /**
   Two runs in which the same was sent, key by key and in the same order, end with the same table up
   to numbers and scores, however items were batched, keys interleaved and batches repeated, provided
   each id is used for one kind and key.
   */
  lemma SentInterleavingIrrelevant(s: Settings, w: World, gateways: set<Id>, events: seq<Event>, events': seq<Event>,
                                   use: Id -> Use)
    requires WorldInv(s, w) && TableAssigned(w.db.reports, use) && Provisioned(s, w, gateways)
    requires Faultless(events) && Faultless(events')
    requires AllAssigned(SentArrivals(s, gateways, Logged(w.db.logs), events), use)
    requires forall key :: Only(SentArrivals(s, gateways, Logged(w.db.logs), events), key)
                           == Only(SentArrivals(s, gateways, Logged(w.db.logs), events'), key)
    ensures ContentTable(Run(s, w, events).db.reports) == ContentTable(Run(s, w, events').db.reports)
  {
    SameByKeyAssigned(SentArrivals(s, gateways, Logged(w.db.logs), events),
                      SentArrivals(s, gateways, Logged(w.db.logs), events'), use);
    SentIsMerged(s, w, gateways, events, use);
    SentIsMerged(s, w, gateways, events', use);
    RunKeepsInv(s, w, events);
    RunKeepsInv(s, w, events');
    var t, t' := Run(s, w, events).db.reports, Run(s, w, events').db.reports;
    forall key ensures Project(t, key) == Project(t', key) {
      PerKeyRefinement(s, w, events, key);
      PerKeyRefinement(s, w, events', key);
    }
    ProjectionsDetermine(t, t');
  }
}
