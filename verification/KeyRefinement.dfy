/**
 Merging batches that mix many keys is, key by key, folding the pure merge decision over the items of
 that key alone, in their order of arrival: keys do not interfere, and batch boundaries do not matter.
 */
module KeyRefinement {
  import opened Options
  import opened Reports
  import opened MergePolicy
  import opened MergeService
  import opened Triage
  import opened Worlds

  /** What an item is merged by: its segment, or its own id. */
  datatype Key = Segment(kind: Kind, key: string) | ById(id: Id)

  function KeyFor(id: Id, kind: Kind, segmentKey: Option<string>): Key {
    if !kind.Sos? && HasKey(segmentKey) then Segment(kind, segmentKey.value) else ById(id)
  }

  function KeyOf(item: Item): Key {
    KeyFor(item.id, item.kind, item.segmentKey)
  }

  function RowKey(id: Id, r: Row): Key {
    KeyFor(id, r.kind, r.segmentKey)
  }

  datatype Arrival = Arrival(gateway: Id, item: Item)

  /** The row of one key, without its number and score. */
  datatype Cell = Cell(id: Id, row: Row)

  // ---- The specification: one key on its own ----

  function CellStep(cell: Option<Cell>, a: Arrival): Option<Cell> {
    var snap := if cell.None? then None else Some(SnapshotOf(cell.value.id, cell.value.row));
    if a.item.kind.Sos? then
      if DecideSos(snap).Noop? then cell else Some(Cell(a.item.id, WrittenRow(a.item, a.gateway, 0)))
    else
      var d := DecideRoadLike(a.item, a.gateway, snap);
      if d.action.Noop? then cell else Some(Cell(d.rowId, WrittenRow(a.item, a.gateway, 0)))
  }

  function Fold(cell: Option<Cell>, h: seq<Arrival>): Option<Cell>
    decreases |h|
  {
    if h == [] then cell else Fold(CellStep(cell, h[0]), h[1..])
  }

  /** The arrivals of one key, in order. */
  function Only(h: seq<Arrival>, key: Key): seq<Arrival> {
    if h == [] then []
    else (if KeyOf(h[0].item) == key then [h[0]] else []) + Only(h[1..], key)
  }

  lemma {:induction false} FoldConcat(cell: Option<Cell>, g: seq<Arrival>, h: seq<Arrival>)
    ensures Fold(cell, g + h) == Fold(Fold(cell, g), h)
    decreases |g|
  {
    if g == [] {
      assert g + h == h;
    } else {
      assert (g + h)[1..] == g[1..] + h;
      FoldConcat(CellStep(cell, g[0]), g[1..], h);
    }
  }

  lemma {:induction false} OnlyConcat(g: seq<Arrival>, h: seq<Arrival>, key: Key)
    ensures Only(g + h, key) == Only(g, key) + Only(h, key)
    decreases |g|
  {
    if g == [] {
      assert g + h == h;
    } else {
      OnlyConcat(g[1..], h, key);
      var head := if KeyOf(g[0].item) == key then [g[0]] else [];
      assert (g + h)[1..] == g[1..] + h;
      assert Only(g, key) == head + Only(g[1..], key);
      assert Only(g + h, key) == head + Only(g[1..] + h, key);
    }
  }

  // ---- Projecting the table ----

  ghost predicate Holds(t: Table, key: Key, id: Id) {
    id in t && RowKey(id, t[id]) == key
  }

  ghost function Project(t: Table, key: Key): Option<Cell> {
    if exists id :: Holds(t, key, id) then
      var id :| Holds(t, key, id);
      Some(Cell(id, Content(t[id])))
    else None
  }

  lemma ProjectSome(t: Table, key: Key, id: Id)
    requires UniqueSegments(t) && Holds(t, key, id)
    ensures Project(t, key) == Some(Cell(id, Content(t[id])))
  {
    forall j | Holds(t, key, j) ensures j == id {
    }
  }

  /** Tables that hold a key alike project alike. */
  lemma ProjectSame(t: Table, t': Table, key: Key)
    requires UniqueSegments(t) && UniqueSegments(t')
    requires forall id :: Holds(t, key, id) <==> Holds(t', key, id)
    requires forall id :: Holds(t, key, id) && Holds(t', key, id) ==> Content(t'[id]) == Content(t[id])
    ensures Project(t', key) == Project(t, key)
  {
    if id :| Holds(t, key, id) {
      ProjectSome(t, key, id);
      ProjectSome(t', key, id);
    }
  }

  // ---- One item ----

  function TableAfter(t: Table, outcome: ItemOutcome): Table {
    if outcome.Touched? then outcome.reports else t
  }

  /** A road or supply item without a segment key whose id is that of a row that holds one. */
  predicate NamesSegmentRow(t: Table, item: Item) {
    !item.kind.Sos? && !HasKey(item.segmentKey) && item.id in t && HasKey(t[item.id].segmentKey)
  }

  ghost predicate Refines(t: Table, t': Table, a: Arrival) {
    forall key :: Project(t', key) == if key == KeyOf(a.item) then CellStep(Project(t, key), a) else Project(t, key)
  }

  lemma ExistingRowIsProjection(t: Table, item: Item)
    requires UniqueSegments(t) && !item.kind.Sos? && !NamesSegmentRow(t, item)
    requires !HasKey(item.segmentKey) && item.id in t ==> t[item.id].kind == item.kind
    ensures match ExistingRow(t, item)
            case None => forall id :: !Holds(t, KeyOf(item), id)
            case Some(id) => Holds(t, KeyOf(item), id)
  {
    if HasKey(item.segmentKey) {
      CanonicalSpec(t, item.kind, item.segmentKey.value);
      assert forall id :: Holds(t, KeyOf(item), id) ==> InSegment(t, item.kind, item.segmentKey.value, id);
    }
  }

  /** Writing a row of one key is invisible to every other key. */
  lemma WriteProjects(t: Table, t': Table, id: Id, key: Key)
    requires UniqueSegments(t) && UniqueSegments(t') && id in t' && t'.Keys == t.Keys + {id}
    requires forall j :: j in t && j != id ==> t'[j] == t[j]
    requires RowKey(id, t'[id]) == key && (id in t ==> RowKey(id, t[id]) == key)
    ensures forall k :: Project(t', k) == if k == key then Some(Cell(id, Content(t'[id]))) else Project(t, k)
  {
    forall k ensures Project(t', k) == if k == key then Some(Cell(id, Content(t'[id]))) else Project(t, k) {
      if k == key {
        ProjectSome(t', key, id);
      } else {
        ProjectSame(t, t', k);
      }
    }
  }

  /** The decision taken on the row an item is merged with is the decision taken on its cell. */
  lemma RoadLikeCell(t: Table, counter: int, a: Arrival)
    requires TableInv(t, counter) && !a.item.kind.Sos? && !ApplyRoadLike(t, counter, a.item, a.gateway).Refused?
    ensures var existing := ExistingRow(t, a.item);
            (existing.Some? ==> existing.value in t)
            && var cell := if existing.None? then None else Some(Cell(existing.value, Content(t[existing.value])));
               match ApplyRoadLike(t, counter, a.item, a.gateway)
               case Touched(t', _, id) =>
                 && t' == t[id := WrittenRow(a.item, a.gateway, counter + 1)]
                 && (if existing.Some? then id == existing.value else id == a.item.id && id !in t)
                 && CellStep(cell, a) == Some(Cell(id, Content(t'[id])))
               case Skipped(_) => CellStep(cell, a) == cell && existing.Some?
               case Refused(_, _) => true
  {
    if HasKey(a.item.segmentKey) {
      CanonicalSpec(t, a.item.kind, a.item.segmentKey.value);
    }
  }

  lemma SosRefines(t: Table, counter: int, a: Arrival)
    requires TableInv(t, counter) && a.item.kind.Sos? && !ApplySos(t, counter, a.item, a.gateway).Refused?
    ensures Refines(t, TableAfter(t, ApplySos(t, counter, a.item, a.gateway)), a)
  {
    var key := KeyOf(a.item);
    ItemAdvances(t, counter, a.item, a.gateway);
    if a.item.id in t {
      ProjectSome(t, key, a.item.id);
    } else {
      assert forall id :: !Holds(t, key, id);
      WriteProjects(t, TableAfter(t, ApplySos(t, counter, a.item, a.gateway)), a.item.id, key);
    }
  }

  lemma RoadLikeRefines(t: Table, counter: int, a: Arrival)
    requires TableInv(t, counter) && !a.item.kind.Sos? && !ApplyRoadLike(t, counter, a.item, a.gateway).Refused?
    requires !NamesSegmentRow(t, a.item)
    ensures Refines(t, TableAfter(t, ApplyRoadLike(t, counter, a.item, a.gateway)), a)
  {
    var key := KeyOf(a.item);
    ItemAdvances(t, counter, a.item, a.gateway);
    ExistingRowIsProjection(t, a.item);
    RoadLikeCell(t, counter, a);
    var existing := ExistingRow(t, a.item);
    if existing.Some? {
      ProjectSome(t, key, existing.value);
    }
    var outcome := ApplyRoadLike(t, counter, a.item, a.gateway);
    if outcome.Touched? {
      WriteProjects(t, outcome.reports, outcome.rowId, key);
    }
  }

  lemma ItemRefines(t: Table, counter: int, a: Arrival)
    requires TableInv(t, counter) && !ApplyItem(t, counter, a.item, a.gateway).Refused?
    requires !NamesSegmentRow(t, a.item)
    ensures Refines(t, TableAfter(t, ApplyItem(t, counter, a.item, a.gateway)), a)
  {
    if a.item.kind.Sos? {
      SosRefines(t, counter, a);
    } else {
      RoadLikeRefines(t, counter, a);
    }
  }

  /** The condition is exact: an item that names a segment's row leaks out of its own key. */
  lemma NamingLeaks(t: Table, counter: int, a: Arrival)
    requires TableInv(t, counter) && !ApplyItem(t, counter, a.item, a.gateway).Refused?
    requires NamesSegmentRow(t, a.item)
    ensures !Refines(t, TableAfter(t, ApplyItem(t, counter, a.item, a.gateway)), a)
  {
    var id := a.item.id;
    var t' := TableAfter(t, ApplyItem(t, counter, a.item, a.gateway));
    var segment := RowKey(id, t[id]);
    if ApplyItem(t, counter, a.item, a.gateway).Touched? {
      ProjectSome(t, segment, id);
      assert forall j :: Holds(t', segment, j) ==> Holds(t, segment, j) && j != id;
      assert Project(t', segment).None?;
    } else {
      assert Project(t, ById(id)).None?;
      assert CellStep(None, a).Some?;
    }
  }

  /** One item affects its own key only, as the pure decision says, if and only if it names no segment's row. */
  lemma ItemRefinesIff(t: Table, counter: int, a: Arrival)
    requires TableInv(t, counter) && !ApplyItem(t, counter, a.item, a.gateway).Refused?
    ensures Refines(t, TableAfter(t, ApplyItem(t, counter, a.item, a.gateway)), a) <==> !NamesSegmentRow(t, a.item)
  {
    if NamesSegmentRow(t, a.item) {
      NamingLeaks(t, counter, a);
    } else {
      ItemRefines(t, counter, a);
    }
  }

  // ---- One batch ----

  function Arrivals(gateway: Id, items: seq<Item>): seq<Arrival> {
    if items == [] then [] else [Arrival(gateway, items[0])] + Arrivals(gateway, items[1..])
  }

  /** No item of the batch, when its turn comes, names a segment's row. */
  ghost predicate LoopDisciplined(p: Progress, items: seq<Item>, gateway: Id, known: bool, fault: Option<int>)
    decreases |items|
  {
    items == []
    || (&& !NamesSegmentRow(p.reports, items[0])
        && match ItemTurn(p, items[0], gateway, known, fault)
           case Failed(_, _) => true
           case Running(q) => LoopDisciplined(q, items[1..], gateway, known, fault))
  }

  lemma TurnRefines(p: Progress, item: Item, gateway: Id, known: bool, fault: Option<int>, key: Key)
    requires ProgressInv(p) && !NamesSegmentRow(p.reports, item)
    ensures match ItemTurn(p, item, gateway, known, fault)
            case Failed(_, _) => true
            case Running(q) =>
              Project(q.reports, key)
              == if key == KeyOf(item) then CellStep(Project(p.reports, key), Arrival(gateway, item))
                 else Project(p.reports, key)
  {
    if ItemTurn(p, item, gateway, known, fault).Running? {
      ItemRefines(p.reports, p.counter, Arrival(gateway, item));
    }
  }

  lemma FoldCons(cell: Option<Cell>, a: Arrival, h: seq<Arrival>, key: Key)
    ensures Fold(cell, Only([a] + h, key)) == Fold(if key == KeyOf(a.item) then CellStep(cell, a) else cell, Only(h, key))
  {
    assert ([a] + h)[1..] == h;
    var rest := Only(h, key);
    if KeyOf(a.item) == key {
      assert Only([a] + h, key) == [a] + rest;
      assert ([a] + rest)[1..] == rest;
    } else {
      assert Only([a] + h, key) == rest;
    }
  }

  lemma {:induction false} LoopRefines(p: Progress, items: seq<Item>, gateway: Id, known: bool, fault: Option<int>, key: Key)
    requires ProgressInv(p) && LoopDisciplined(p, items, gateway, known, fault)
    ensures match ItemLoop(p, items, gateway, known, fault)
            case Failed(_, _) => true
            case Running(q) =>
              Project(q.reports, key) == Fold(Project(p.reports, key), Only(Arrivals(gateway, items), key))
    decreases |items|
  {
    if items != [] {
      TurnContinues(p, items[0], gateway, known, fault);
      TurnRefines(p, items[0], gateway, known, fault, key);
      match ItemTurn(p, items[0], gateway, known, fault) {
        case Failed(_, _) =>
        case Running(q) =>
          LoopRefines(q, items[1..], gateway, known, fault, key);
          FoldCons(Project(p.reports, key), Arrival(gateway, items[0]), Arrivals(gateway, items[1..]), key);
      }
    }
  }

  // ---- Whole runs ----

  /** What a step merges: the items of an accepted batch, and nothing otherwise. */
  ghost function StepArrivals(s: Settings, w: World, e: Event): seq<Arrival> {
    if e.Push? && OutcomeOf(s, w, e).Done? && !OutcomeOf(s, w, e).result.replay
    then Arrivals(e.body.gateway, e.body.reports) else []
  }

  /** The items of all accepted batches of a run, in the order they were merged. */
  ghost function RunArrivals(s: Settings, w: World, events: seq<Event>): seq<Arrival>
    decreases |events|
  {
    if events == [] then [] else StepArrivals(s, w, events[0]) + RunArrivals(s, Step(s, w, events[0]), events[1..])
  }

  ghost predicate StepDisciplined(s: Settings, w: World, e: Event) {
    StepArrivals(s, w, e) != [] ==>
      var known := e.body.gateway in SeeGateway(w.db.gateways, e.body, e.now, s.requireAuth);
      LoopDisciplined(Progress(w.db.reports, w.counter, 0, [], []), e.body.reports, e.body.gateway, known, e.fault)
  }

  /** No item of an accepted batch names the row of a segment without naming the segment. */
  ghost predicate RunDisciplined(s: Settings, w: World, events: seq<Event>)
    decreases |events|
  {
    events == [] || (StepDisciplined(s, w, events[0]) && RunDisciplined(s, Step(s, w, events[0]), events[1..]))
  }

  lemma StepRefines(s: Settings, w: World, e: Event, key: Key)
    requires WorldInv(s, w) && StepDisciplined(s, w, e)
    ensures Project(Step(s, w, e).db.reports, key) == Fold(Project(w.db.reports, key), Only(StepArrivals(s, w, e), key))
  {
    match e
    case Push(body, _, _, now, fault) =>
      if OutcomeOf(s, w, e).Done? && !OutcomeOf(s, w, e).result.replay {
        var known := body.gateway in SeeGateway(w.db.gateways, body, now, s.requireAuth);
        LoopRefines(Progress(w.db.reports, w.counter, 0, [], []), body.reports, body.gateway, known, fault, key);
      }
    case Pull(_, _) =>
    case RunTask(k) =>
      if k < |w.queue| {
        TaskProjects(w.db.reports, w.counter, w.queue[k], key);
      }
  }

  lemma TaskProjects(t: Table, counter: int, ids: seq<Id>, key: Key)
    requires TableInv(t, counter)
    ensures Project(RunTriage(t, ids), key) == Project(t, key)
  {
    RunTriageSpec(t, ids);
    ProjectSame(t, RunTriage(t, ids), key);
  }

  /**
   After any run, with failed and repeated pushes, pulls and triage in between, the row of each key
   is what the pure decision makes of that key's items alone.
   */
  lemma {:induction false} PerKeyRefinement(s: Settings, w: World, events: seq<Event>, key: Key)
    requires WorldInv(s, w) && RunDisciplined(s, w, events)
    ensures Project(Run(s, w, events).db.reports, key)
            == Fold(Project(w.db.reports, key), Only(RunArrivals(s, w, events), key))
    decreases |events|
  {
    if events != [] {
      var w1 := Step(s, w, events[0]);
      StepRefines(s, w, events[0], key);
      StepKeepsInv(s, w, events[0]);
      PerKeyRefinement(s, w1, events[1..], key);
      var g, h := StepArrivals(s, w, events[0]), RunArrivals(s, w1, events[1..]);
      OnlyConcat(g, h, key);
      FoldConcat(Project(w.db.reports, key), Only(g, key), Only(h, key));
    }
  }

  function ContentTable(t: Table): map<Id, Row> {
    map id | id in t :: Content(t[id])
  }

  lemma ProjectionsDetermine(t: Table, t': Table)
    requires UniqueSegments(t) && UniqueSegments(t')
    requires forall key :: Project(t, key) == Project(t', key)
    ensures ContentTable(t) == ContentTable(t')
  {
    forall id | id in t ensures id in t' && Content(t'[id]) == Content(t[id]) {
      ProjectSome(t, RowKey(id, t[id]), id);
      assert Project(t', RowKey(id, t[id])).Some?;
    }
    forall id | id in t' ensures id in t {
      ProjectSome(t', RowKey(id, t'[id]), id);
      assert Project(t, RowKey(id, t'[id])).Some?;
    }
  }

  /**
   Two runs whose accepted items agree key by key end with the same table up to numbers and scores,
   however the items were cut into batches and however the keys were interleaved.
   */
  lemma InterleavingIrrelevant(s: Settings, events: seq<Event>, events': seq<Event>)
    requires RunDisciplined(s, EMPTY, events) && RunDisciplined(s, EMPTY, events')
    requires forall key :: Only(RunArrivals(s, EMPTY, events), key) == Only(RunArrivals(s, EMPTY, events'), key)
    ensures ContentTable(Run(s, EMPTY, events).db.reports) == ContentTable(Run(s, EMPTY, events').db.reports)
  {
    Reachable(s, events);
    Reachable(s, events');
    var t, t' := Run(s, EMPTY, events).db.reports, Run(s, EMPTY, events').db.reports;
    forall key ensures Project(t, key) == Project(t', key) {
      PerKeyRefinement(s, EMPTY, events, key);
      PerKeyRefinement(s, EMPTY, events', key);
    }
    ProjectionsDetermine(t, t');
  }

  // ---- A discipline clients can follow ----

  /** Ids in `own` are used for items without a segment key, and only for those (SOS items aside). */
  predicate KeepsApart(item: Item, own: set<Id>) {
    item.kind.Sos? || (HasKey(item.segmentKey) <==> item.id !in own)
  }

  ghost predicate SegmentsApart(t: Table, own: set<Id>) {
    forall id :: id in t && !t[id].kind.Sos? && HasKey(t[id].segmentKey) ==> id !in own
  }

  lemma {:induction false} LoopApart(p: Progress, items: seq<Item>, gateway: Id, known: bool, fault: Option<int>,
                                     own: set<Id>)
    requires ProgressInv(p) && SegmentsApart(p.reports, own)
    requires forall i :: 0 <= i < |items| ==> KeepsApart(items[i], own)
    requires ItemLoop(p, items, gateway, known, fault).Running?
    ensures LoopDisciplined(p, items, gateway, known, fault)
    ensures SegmentsApart(ItemLoop(p, items, gateway, known, fault).progress.reports, own)
    decreases |items|
  {
    if items != [] {
      TurnContinues(p, items[0], gateway, known, fault);
      ItemApart(p.reports, p.counter, items[0], gateway, own);
      LoopApart(ItemTurn(p, items[0], gateway, known, fault).progress, items[1..], gateway, known, fault, own);
    }
  }

  lemma ItemApart(t: Table, counter: int, item: Item, gateway: Id, own: set<Id>)
    requires TableInv(t, counter) && SegmentsApart(t, own) && KeepsApart(item, own)
    requires !ApplyItem(t, counter, item, gateway).Refused?
    ensures !NamesSegmentRow(t, item)
    ensures SegmentsApart(TableAfter(t, ApplyItem(t, counter, item, gateway)), own)
  {
    if !item.kind.Sos? {
      if HasKey(item.segmentKey) {
        CanonicalSpec(t, item.kind, item.segmentKey.value);
      }
      RoadLikeWrites(t, counter, item, gateway);
    }
  }

  lemma ArrivalsAt(gateway: Id, items: seq<Item>, i: nat)
    requires i < |items|
    ensures |Arrivals(gateway, items)| == |items| && Arrivals(gateway, items)[i] == Arrival(gateway, items[i])
  {
    if i > 0 {
      ArrivalsAt(gateway, items[1..], i - 1);
    } else if |items| > 1 {
      ArrivalsAt(gateway, items[1..], 0);
    }
  }

  ghost predicate AllApart(h: seq<Arrival>, own: set<Id>) {
    forall i :: 0 <= i < |h| ==> KeepsApart(h[i].item, own)
  }

  lemma StepApart(s: Settings, w: World, e: Event, own: set<Id>)
    requires WorldInv(s, w) && SegmentsApart(w.db.reports, own) && AllApart(StepArrivals(s, w, e), own)
    ensures StepDisciplined(s, w, e) && SegmentsApart(Step(s, w, e).db.reports, own)
  {
    match e
    case Push(body, _, _, now, fault) =>
      if OutcomeOf(s, w, e).Done? && !OutcomeOf(s, w, e).result.replay {
        var known := body.gateway in SeeGateway(w.db.gateways, body, now, s.requireAuth);
        forall i | 0 <= i < |body.reports| ensures KeepsApart(body.reports[i], own) {
          ArrivalsAt(body.gateway, body.reports, i);
          assert KeepsApart(StepArrivals(s, w, e)[i].item, own);
        }
        LoopApart(Progress(w.db.reports, w.counter, 0, [], []), body.reports, body.gateway, known, fault, own);
      }
    case Pull(_, _) =>
    case RunTask(k) =>
      if k < |w.queue| {
        RunTriageSpec(w.db.reports, w.queue[k]);
      }
  }

  /** If no id is used both with and without a segment key, the run is disciplined. */
  lemma {:induction false} SeparateIdsSuffice(s: Settings, w: World, events: seq<Event>, own: set<Id>)
    requires WorldInv(s, w) && SegmentsApart(w.db.reports, own) && AllApart(RunArrivals(s, w, events), own)
    ensures RunDisciplined(s, w, events)
    decreases |events|
  {
    if events != [] {
      var w1 := Step(s, w, events[0]);
      var g, h := StepArrivals(s, w, events[0]), RunArrivals(s, w1, events[1..]);
      assert AllApart(g, own) by {
        forall i | 0 <= i < |g| ensures KeepsApart(g[i].item, own) {
          assert (g + h)[i] == g[i];
        }
      }
      assert AllApart(h, own) by {
        forall i | 0 <= i < |h| ensures KeepsApart(h[i].item, own) {
          assert (g + h)[|g| + i] == h[i];
        }
      }
      StepApart(s, w, events[0], own);
      StepKeepsInv(s, w, events[0]);
      SeparateIdsSuffice(s, w1, events[1..], own);
    }
  }
}
