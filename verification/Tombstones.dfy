/**
 How far a tombstone protects its segment. The row itself never comes back, but an item without a
 segment key that names the row takes it out of the segment, which is then free again.
 */
module Tombstones {
  import opened Options
  import opened Reports
  import opened MergePolicy
  import opened MergeService
  import opened Worlds
  import opened KeyRefinement
  import opened Triage

  ghost predicate Buried(t: Table, key: Key) {
    Project(t, key).Some? && Project(t, key).value.row.isTombstone
  }

  lemma {:induction false} FoldKeepsTombstone(cell: Option<Cell>, h: seq<Arrival>)
    requires cell.Some? && cell.value.row.isTombstone
    ensures Fold(cell, h).Some? && Fold(cell, h).value.row.isTombstone
    decreases |h|
  {
    if h != [] {
      FoldKeepsTombstone(CellStep(cell, h[0]), h[1..]);
    }
  }

  /** In a disciplined run a key that was once deleted stays deleted, whatever live items arrive. */
  lemma DisciplinedStaysBuried(s: Settings, w: World, events: seq<Event>, key: Key)
    requires WorldInv(s, w) && RunDisciplined(s, w, events) && Buried(w.db.reports, key)
    ensures Buried(Run(s, w, events).db.reports, key)
  {
    PerKeyRefinement(s, w, events, key);
    FoldKeepsTombstone(Project(w.db.reports, key), Only(RunArrivals(s, w, events), key));
  }

  /** The item is a tombstone that names this row without naming its segment, and wins against it. */
  predicate Evicts(t: Table, item: Item, gateway: Id, id: Id)
    requires id in t
  {
    && !item.kind.Sos? && !HasKey(item.segmentKey) && item.id == id
    && IncomingIsTombstone(item)
    && IncomingBeatsExisting(item, gateway, SnapshotOf(id, t[id]))
  }

  /** A deleted segment stops being deleted in exactly one way: its row is evicted. */
  lemma UnburiedIff(t: Table, counter: int, item: Item, gateway: Id, id: Id)
    requires TableInv(t, counter) && id in t && t[id].isTombstone && HasKey(t[id].segmentKey)
    requires !ApplyItem(t, counter, item, gateway).Refused?
    ensures Buried(TableAfter(t, ApplyItem(t, counter, item, gateway)), RowKey(id, t[id]))
            <==> !Evicts(t, item, gateway, id)
  {
    var outcome := ApplyItem(t, counter, item, gateway);
    var t', key := TableAfter(t, outcome), RowKey(id, t[id]);
    ItemAdvances(t, counter, item, gateway);
    if Evicts(t, item, gateway, id) {
      EvictionFrees(t, counter, item, gateway, id);
    } else {
      KeptInSegment(t, counter, item, gateway, id);
      ProjectSome(t', key, id);
    }
  }

  lemma EvictionFrees(t: Table, counter: int, item: Item, gateway: Id, id: Id)
    requires TableInv(t, counter) && id in t && t[id].isTombstone && HasKey(t[id].segmentKey)
    requires !ApplyItem(t, counter, item, gateway).Refused? && Evicts(t, item, gateway, id)
    ensures var outcome := ApplyItem(t, counter, item, gateway);
            outcome == Touched(t[id := WrittenRow(item, gateway, counter + 1)], counter + 1, id)
            && forall j :: !Holds(outcome.reports, RowKey(id, t[id]), j)
  {
    var t' := t[id := WrittenRow(item, gateway, counter + 1)];
    assert RowKey(id, t'[id]) == ById(id);
  }

  lemma KeptInSegment(t: Table, counter: int, item: Item, gateway: Id, id: Id)
    requires TableInv(t, counter) && id in t && t[id].isTombstone && HasKey(t[id].segmentKey)
    requires !ApplyItem(t, counter, item, gateway).Refused? && !Evicts(t, item, gateway, id)
    ensures var t' := TableAfter(t, ApplyItem(t, counter, item, gateway));
            Holds(t', RowKey(id, t[id]), id) && t'[id].isTombstone
  {
    ItemAdvances(t, counter, item, gateway);
    if !item.kind.Sos? && HasKey(item.segmentKey) {
      CanonicalSpec(t, item.kind, item.segmentKey.value);
    }
  }

  // ---- Over whole runs ----

  /** The row `id` is a tombstone and holds the segment `key`. */
  ghost predicate Grave(t: Table, key: Key, id: Id) {
    id in t && t[id].isTombstone && HasKey(t[id].segmentKey) && RowKey(id, t[id]) == key
  }

  /** The row is outside all segments. */
  ghost predicate Outside(t: Table, id: Id) {
    id in t && !t[id].kind.Sos? && !HasKey(t[id].segmentKey)
  }

  /** No item of the batch, when its turn comes, evicts the row. */
  ghost predicate LoopSpares(p: Progress, items: seq<Item>, gateway: Id, known: bool, fault: Option<int>, id: Id)
    decreases |items|
  {
    items == []
    || (&& (id in p.reports ==> !Evicts(p.reports, items[0], gateway, id))
        && match ItemTurn(p, items[0], gateway, known, fault)
           case Failed(_, _) => true
           case Running(q) => LoopSpares(q, items[1..], gateway, known, fault, id))
  }

  ghost predicate StepSpares(s: Settings, w: World, e: Event, id: Id) {
    StepArrivals(s, w, e) != [] ==>
      var known := e.body.gateway in SeeGateway(w.db.gateways, e.body, e.now, s.requireAuth);
      LoopSpares(Progress(w.db.reports, w.counter, 0, [], []), e.body.reports, e.body.gateway, known, e.fault, id)
  }

  /** No item of an accepted batch evicts the row. */
  ghost predicate RunSpares(s: Settings, w: World, events: seq<Event>, id: Id)
    decreases |events|
  {
    events == [] || (StepSpares(s, w, events[0], id) && RunSpares(s, Step(s, w, events[0]), events[1..], id))
  }

  /** An item that is not refused leaves a grave as it is or evicts it, and never brings a row into a segment. */
  lemma ItemOnGrave(t: Table, counter: int, item: Item, gateway: Id, key: Key, id: Id)
    requires TableInv(t, counter) && !ApplyItem(t, counter, item, gateway).Refused?
    ensures var t' := TableAfter(t, ApplyItem(t, counter, item, gateway));
            && (Grave(t, key, id) ==> if Evicts(t, item, gateway, id) then Outside(t', id) else Grave(t', key, id))
            && (Outside(t, id) ==> Outside(t', id))
  {
    if Grave(t, key, id) {
      if Evicts(t, item, gateway, id) {
        EvictionFrees(t, counter, item, gateway, id);
      } else {
        KeptInSegment(t, counter, item, gateway, id);
        ItemAdvances(t, counter, item, gateway);
      }
    }
    if Outside(t, id) {
      StaysOutside(t, counter, item, gateway, id);
    }
  }

  lemma StaysOutside(t: Table, counter: int, item: Item, gateway: Id, id: Id)
    requires TableInv(t, counter) && !ApplyItem(t, counter, item, gateway).Refused? && Outside(t, id)
    ensures Outside(TableAfter(t, ApplyItem(t, counter, item, gateway)), id)
  {
    if !item.kind.Sos? {
      RoadLikeWrites(t, counter, item, gateway);
    }
  }

  lemma {:induction false} LoopOnGrave(p: Progress, items: seq<Item>, gateway: Id, known: bool, fault: Option<int>,
                                       key: Key, id: Id)
    requires ProgressInv(p) && ItemLoop(p, items, gateway, known, fault).Running?
    ensures var t' := ItemLoop(p, items, gateway, known, fault).progress.reports;
            && (Grave(p.reports, key, id) ==>
                  if LoopSpares(p, items, gateway, known, fault, id) then Grave(t', key, id) else Outside(t', id))
            && (Outside(p.reports, id) ==> Outside(t', id))
    decreases |items|
  {
    if items != [] {
      ItemOnGrave(p.reports, p.counter, items[0], gateway, key, id);
      TurnContinues(p, items[0], gateway, known, fault);
      LoopOnGrave(ItemTurn(p, items[0], gateway, known, fault).progress, items[1..], gateway, known, fault, key, id);
    }
  }

  lemma StepOnGrave(s: Settings, w: World, e: Event, key: Key, id: Id)
    requires WorldInv(s, w)
    ensures var t, t' := w.db.reports, Step(s, w, e).db.reports;
            && (Grave(t, key, id) ==> if StepSpares(s, w, e, id) then Grave(t', key, id) else Outside(t', id))
            && (Outside(t, id) ==> Outside(t', id))
  {
    match e
    case Push(body, _, _, now, fault) =>
      if OutcomeOf(s, w, e).Done? && !OutcomeOf(s, w, e).result.replay {
        var known := body.gateway in SeeGateway(w.db.gateways, body, now, s.requireAuth);
        LoopOnGrave(Progress(w.db.reports, w.counter, 0, [], []), body.reports, body.gateway, known, fault, key, id);
        assert StepArrivals(s, w, e) == [] <==> body.reports == [];
      }
    case Pull(_, _) =>
    case RunTask(k) =>
      if k < |w.queue| {
        RunTriageSpec(w.db.reports, w.queue[k]);
      }
  }

  lemma {:induction false} RunOnGrave(s: Settings, w: World, events: seq<Event>, key: Key, id: Id)
    requires WorldInv(s, w)
    ensures var t, t' := w.db.reports, Run(s, w, events).db.reports;
            && (Grave(t, key, id) ==> if RunSpares(s, w, events, id) then Grave(t', key, id) else Outside(t', id))
            && (Outside(t, id) ==> Outside(t', id))
    decreases |events|
  {
    if events != [] {
      StepOnGrave(s, w, events[0], key, id);
      StepKeepsInv(s, w, events[0]);
      RunOnGrave(s, Step(s, w, events[0]), events[1..], key, id);
    }
  }

  /**
   Over any run, disciplined or not, a deleted segment's row goes on holding the segment, deleted, if
   and only if no accepted item evicts it when its turn comes; once evicted it is outside for good.
   */
  lemma StaysBuriedIff(s: Settings, w: World, events: seq<Event>, key: Key, id: Id)
    requires WorldInv(s, w) && Grave(w.db.reports, key, id)
    ensures Grave(Run(s, w, events).db.reports, key, id) <==> RunSpares(s, w, events, id)
    ensures RunSpares(s, w, events, id) ==> Buried(Run(s, w, events).db.reports, key)
  {
    RunOnGrave(s, w, events, key, id);
    RunKeepsInv(s, w, events);
    if RunSpares(s, w, events, id) {
      ProjectSome(Run(s, w, events).db.reports, key, id);
    }
  }

  // ---- What an eviction opens ----

  /** After an eviction, any live item with a fresh id re-opens the deleted segment. */
  lemma EvictionResurrects(t: Table, counter: int, dead: Item, live: Item, gateway: Id, id: Id)
    requires TableInv(t, counter) && id in t && t[id].isTombstone && HasKey(t[id].segmentKey)
    requires Evicts(t, dead, gateway, id) && !ApplyItem(t, counter, dead, gateway).Refused?
    requires live.kind == t[id].kind && live.segmentKey == t[id].segmentKey && live.id !in t && !IncomingIsTombstone(live)
    ensures var first := ApplyItem(t, counter, dead, gateway);
            first.Touched? &&
            var second := ApplyItem(first.reports, first.counter, live, gateway);
            && second.Touched? && second.rowId == live.id
            && !second.reports[live.id].isTombstone
            && Canonical(second.reports, live.kind, live.segmentKey.value) == Some(live.id)
  {
    var first := ApplyItem(t, counter, dead, gateway);
    EvictionFrees(t, counter, dead, gateway, id);
    ItemAdvances(t, counter, dead, gateway);
    FreeSegmentOpens(first.reports, first.counter, live, gateway);
  }

  /** An item whose segment no row holds and whose id is fresh becomes the segment's row. */
  lemma FreeSegmentOpens(t: Table, counter: int, live: Item, gateway: Id)
    requires TableInv(t, counter) && !live.kind.Sos? && HasKey(live.segmentKey) && live.id !in t
    requires forall j :: !Holds(t, KeyOf(live), j)
    ensures var second := ApplyItem(t, counter, live, gateway);
            && second == Touched(t[live.id := WrittenRow(live, gateway, counter + 1)], counter + 1, live.id)
            && Canonical(second.reports, live.kind, live.segmentKey.value) == Some(live.id)
  {
    CanonicalSpec(t, live.kind, live.segmentKey.value);
    assert forall j :: InSegment(t, live.kind, live.segmentKey.value, j) ==> Holds(t, KeyOf(live), j);
    var second := ApplyItem(t, counter, live, gateway);
    ItemAdvances(t, counter, live, gateway);
    CanonicalSpec(second.reports, live.kind, live.segmentKey.value);
    assert InSegment(second.reports, live.kind, live.segmentKey.value, live.id);
  }
}
