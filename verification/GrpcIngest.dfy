/**
 The gRPC ingest path: a batch decoded from its wire form goes through the same merge. It simulates
 the REST path up to the difference between an empty and an absent segment key.
 */
module GrpcIngest {
  import opened Options
  import opened Reports
  import opened MergePolicy
  import opened MergeService

  /** proto3 strings have no presence: an absent segment key or gateway name is the empty string. */
  datatype WireItem = WireItem(
    id: Id,
    kind: Kind,
    segmentKey: string,
    status: string,
    payload: Payload,
    createdAt: Time,
    updatedAt: Time,
    deletedAt: Option<Time>,
    isTombstone: Option<bool>)

  datatype WireBatch = WireBatch(gateway: Id, batch: Id, name: string, reports: seq<WireItem>)

  function TextOf(s: Option<string>): string {
    if s.None? then "" else s.value
  }

  function KeyOrNone(s: string): Option<string> {
    if s == "" then None else Some(s)
  }

  function EncodeItem(item: Item): WireItem {
    WireItem(item.id, item.kind, TextOf(item.segmentKey), item.status, item.payload, item.createdAt, item.updatedAt,
             item.deletedAt, item.isTombstone)
  }

  function EncodeItems(items: seq<Item>): seq<WireItem> {
    if items == [] then [] else [EncodeItem(items[0])] + EncodeItems(items[1..])
  }

  function Encode(body: Body): WireBatch {
    WireBatch(body.gateway, body.batch, TextOf(body.name), EncodeItems(body.reports))
  }

  /** The explicit tombstone flag is on the wire but is not read. */
  function DecodeItem(w: WireItem): Item {
    Item(w.id, w.kind, KeyOrNone(w.segmentKey), w.status, w.payload, w.createdAt, w.updatedAt, w.deletedAt, None)
  }

  function DecodeItems(items: seq<WireItem>): seq<Item> {
    if items == [] then [] else [DecodeItem(items[0])] + DecodeItems(items[1..])
  }

  function DecodeBody(w: WireBatch, items: seq<Item>): Body {
    Body(w.gateway, w.batch, KeyOrNone(w.name), items)
  }

  function Decode(w: WireBatch): Body {
    DecodeBody(w, DecodeItems(w.reports))
  }

  /** The decoding loop, which appends one item at a time. */
  method PbToRequest(pb: WireBatch) returns (body: Body)
    ensures body == Decode(pb)
    ensures |body.reports| == |pb.reports|
    ensures forall i :: 0 <= i < |pb.reports| ==> body.reports[i] == DecodeItem(pb.reports[i])
  {
    var reports: seq<Item> := [];
    for i := 0 to |pb.reports|
      invariant |reports| == i
      invariant forall j :: 0 <= j < i ==> reports[j] == DecodeItem(pb.reports[j])
      invariant reports + DecodeItems(pb.reports[i..]) == DecodeItems(pb.reports)
    {
      reports := reports + [DecodeItem(pb.reports[i])];
      assert pb.reports[i..][1..] == pb.reports[i + 1..];
    }
    assert pb.reports[|pb.reports|..] == [];
    return DecodeBody(pb, reports);
  }

  // ---- When both paths mean the same ----

  /** An explicit tombstone flag on a road or supply item comes with a deletion time. */
  predicate Faithful(item: Item) {
    item.kind.Sos? || (item.isTombstone == Some(true) ==> item.deletedAt.Some?)
  }

  predicate FaithfulBatch(items: seq<Item>) {
    forall i :: 0 <= i < |items| ==> Faithful(items[i])
  }

  function NormalKey(key: Option<string>): Option<string> {
    if HasKey(key) then key else None
  }

  function NormalRow(r: Row): Row {
    r.(segmentKey := NormalKey(r.segmentKey))
  }

  ghost predicate SameTables(t: Table, u: Table) {
    t.Keys == u.Keys && forall id :: id in t ==> NormalRow(t[id]) == NormalRow(u[id])
  }

  function NormalAudit(a: Audit): Audit {
    a.(segmentKey := NormalKey(a.segmentKey))
  }

  ghost predicate SameAudits(a: seq<Audit>, b: seq<Audit>) {
    |a| == |b| && forall i :: 0 <= i < |a| ==> NormalAudit(a[i]) == NormalAudit(b[i])
  }

  ghost predicate SameOutcomes(a: ItemOutcome, b: ItemOutcome) {
    match a
    case Touched(t, c, id) => b.Touched? && SameTables(t, b.reports) && c == b.counter && id == b.rowId
    case Skipped(audit) => b.Skipped? && NormalAudit(audit) == NormalAudit(b.audit)
    case Refused(_, _) => b == a
  }

  /** Non-empty segments are the same rows on both sides, so the same row is canonical. */
  lemma SameCanonical(t: Table, u: Table, kind: Kind, key: string)
    requires SameTables(t, u) && key != ""
    ensures Canonical(t, kind, key) == Canonical(u, kind, key)
  {
    forall id | id in t ensures
        t[id].kind == u[id].kind && t[id].seqId == u[id].seqId && RowStamp(t[id]) == RowStamp(u[id])
        && (t[id].segmentKey == Some(key) <==> u[id].segmentKey == Some(key)) {
      assert NormalRow(t[id]) == NormalRow(u[id]);
    }
    assert SegmentRows(t, kind, key) == SegmentRows(u, kind, key);
    var rows := SegmentRows(t, kind, key);
    if rows != {} {
      CanonicalIsFirst(t, kind, key);
      CanonicalIsFirst(u, kind, key);
      var a, b := Canonical(t, kind, key).value, Canonical(u, kind, key).value;
      assert a != b ==> CanonicalBefore(t, a, b) && CanonicalBefore(u, b, a);
    }
  }

  lemma CanonicalIsFirst(t: Table, kind: Kind, key: string)
    requires SegmentRows(t, kind, key) != {}
    ensures var c := Canonical(t, kind, key);
            c.Some? && c.value in SegmentRows(t, kind, key)
            && forall x :: x in SegmentRows(t, kind, key) && x != c.value ==> CanonicalBefore(t, c.value, x)
  {
  }

  lemma SosSimulated(t: Table, u: Table, counter: int, item: Item, gateway: Id)
    requires SameTables(t, u) && item.kind.Sos?
    ensures SameOutcomes(ApplySos(t, counter, item, gateway), ApplySos(u, counter, DecodeItem(EncodeItem(item)), gateway))
  {
    assert item.id in t ==> NormalRow(t[item.id]) == NormalRow(u[item.id]);
  }

  /** The policy never looks at segment keys, so on related rows it decides alike. */
  lemma DecisionSimulated(item: Item, gateway: Id, existing: Option<Snapshot>)
    requires Faithful(item) && !item.kind.Sos?
    ensures DecideRoadLike(DecodeItem(EncodeItem(item)), gateway, existing)
            == DecideRoadLike(item, gateway, existing).(segmentKey := NormalKey(item.segmentKey))
  {
  }

  lemma ExistingSimulated(t: Table, u: Table, item: Item)
    requires SameTables(t, u) && !item.kind.Sos?
    ensures ExistingRow(t, item) == ExistingRow(u, DecodeItem(EncodeItem(item)))
    ensures ExistingRow(t, item).Some? ==> ExistingRow(t, item).value in t
    ensures forall id :: id in t ==> t[id].kind == u[id].kind && SnapshotOf(id, t[id]) == SnapshotOf(id, u[id])
  {
    forall id | id in t ensures t[id].kind == u[id].kind && SnapshotOf(id, t[id]) == SnapshotOf(id, u[id]) {
      assert NormalRow(t[id]) == NormalRow(u[id]);
    }
    if HasKey(item.segmentKey) {
      SameCanonical(t, u, item.kind, item.segmentKey.value);
      CanonicalSpec(t, item.kind, item.segmentKey.value);
    }
  }

  lemma CarrySimulated(t: Table, u: Table, counter: int, item: Item, gateway: Id, snap: Option<Snapshot>, d: Decision)
    requires SameTables(t, u) && Faithful(item) && !item.kind.Sos?
    ensures SameOutcomes(Carry(t, counter, item, gateway, snap, d),
                         Carry(u, counter, DecodeItem(EncodeItem(item)), gateway, snap,
                               d.(segmentKey := NormalKey(d.segmentKey))))
  {
  }

  lemma RoadLikeSimulated(t: Table, u: Table, counter: int, item: Item, gateway: Id)
    requires SameTables(t, u) && Faithful(item) && !item.kind.Sos?
    ensures SameOutcomes(ApplyRoadLike(t, counter, item, gateway),
                         ApplyRoadLike(u, counter, DecodeItem(EncodeItem(item)), gateway))
  {
    ExistingSimulated(t, u, item);
    var existing := ExistingRow(t, item);
    var snap := if existing.None? then None else Some(SnapshotOf(existing.value, t[existing.value]));
    DecisionSimulated(item, gateway, snap);
    CarrySimulated(t, u, counter, item, gateway, snap, DecideRoadLike(item, gateway, snap));
  }

  lemma ItemSimulated(t: Table, u: Table, counter: int, item: Item, gateway: Id)
    requires SameTables(t, u) && Faithful(item)
    ensures SameOutcomes(ApplyItem(t, counter, item, gateway),
                         ApplyItem(u, counter, DecodeItem(EncodeItem(item)), gateway))
  {
    if item.kind.Sos? {
      SosSimulated(t, u, counter, item, gateway);
    } else {
      RoadLikeSimulated(t, u, counter, item, gateway);
    }
  }

  /** For a single item the condition is exact: a bare flag makes the two paths part, on the empty table already. */
  lemma SimulatedIff(item: Item, gateway: Id)
    ensures (forall t, u, counter :: SameTables(t, u) ==>
               SameOutcomes(ApplyItem(t, counter, item, gateway),
                            ApplyItem(u, counter, DecodeItem(EncodeItem(item)), gateway)))
            <==> Faithful(item)
  {
    if Faithful(item) {
      forall t, u, counter | SameTables(t, u)
        ensures SameOutcomes(ApplyItem(t, counter, item, gateway),
                             ApplyItem(u, counter, DecodeItem(EncodeItem(item)), gateway))
      {
        ItemSimulated(t, u, counter, item, gateway);
      }
    } else {
      BareFlagDiffers(item, gateway);
    }
  }

  lemma BareFlagDiffers(item: Item, gateway: Id)
    requires !Faithful(item)
    ensures SameTables(map[], map[])
    ensures !SameOutcomes(ApplyItem(map[], 0, item, gateway), ApplyItem(map[], 0, DecodeItem(EncodeItem(item)), gateway))
  {
    var item' := DecodeItem(EncodeItem(item));
    assert ExistingRow(map[], item).None? && ExistingRow(map[], item').None? by {
      if HasKey(item.segmentKey) {
        CanonicalSpec(map[], item.kind, item.segmentKey.value);
      }
    }
    var a, b := ApplyItem(map[], 0, item, gateway), ApplyItem(map[], 0, item', gateway);
    assert a.reports[item.id].isTombstone && !b.reports[item.id].isTombstone;
  }

  // ---- Whole batches ----

  ghost predicate SameProgress(p: Progress, q: Progress) {
    && SameTables(p.reports, q.reports)
    && p.counter == q.counter && p.touches == q.touches && p.triageIds == q.triageIds
    && SameAudits(p.audit, q.audit)
  }

  ghost predicate SameLoops(a: Loop, b: Loop) {
    match a
    case Running(p) => b.Running? && SameProgress(p, b.progress)
    case Failed(_, _) => b == a
  }

  lemma TurnSimulated(p: Progress, q: Progress, item: Item, gateway: Id, known: bool, fault: Option<int>)
    requires SameProgress(p, q) && Faithful(item)
    ensures SameLoops(ItemTurn(p, item, gateway, known, fault),
                      ItemTurn(q, DecodeItem(EncodeItem(item)), gateway, known, fault))
  {
    ItemSimulated(p.reports, q.reports, p.counter, item, gateway);
  }

  lemma {:induction false} LoopSimulated(p: Progress, q: Progress, items: seq<Item>, gateway: Id, known: bool,
                                         fault: Option<int>)
    requires SameProgress(p, q) && FaithfulBatch(items)
    ensures |DecodeItems(EncodeItems(items))| == |items|
    ensures SameLoops(ItemLoop(p, items, gateway, known, fault),
                      ItemLoop(q, DecodeItems(EncodeItems(items)), gateway, known, fault))
    decreases |items|
  {
    if items != [] {
      TurnSimulated(p, q, items[0], gateway, known, fault);
      var wire := EncodeItems(items);
      assert wire[1..] == EncodeItems(items[1..]);
      assert DecodeItems(wire)[1..] == DecodeItems(wire[1..]);
      var a, b := ItemTurn(p, items[0], gateway, known, fault), ItemTurn(q, DecodeItems(wire)[0], gateway, known, fault);
      if a.Running? {
        LoopSimulated(a.progress, b.progress, items[1..], gateway, known, fault);
      } else {
        LoopSimulated(p, q, items[1..], gateway, known, fault);
      }
    }
  }

  function NormalLog(l: SyncLog): SyncLog {
    l.(audit := [])
  }

  ghost predicate SameLogs(a: seq<SyncLog>, b: seq<SyncLog>) {
    |a| == |b| && forall i :: 0 <= i < |a| ==> NormalLog(a[i]) == NormalLog(b[i]) && SameAudits(a[i].audit, b[i].audit)
  }

  /** Databases that differ only in writing an absent segment key as an empty one. */
  ghost predicate SameDbs(a: Db, b: Db) {
    SameTables(a.reports, b.reports) && SameLogs(a.logs, b.logs) && a.gateways == b.gateways
  }

  ghost predicate SameBatchOutcomes(a: BatchOutcome, b: BatchOutcome) {
    match a
    case Done(db, c, result) => b.Done? && SameDbs(db, b.db) && c == b.counter && result == b.result
    case Aborted(_, _) => b == a
  }

  lemma {:induction false} SameFindLog(a: seq<SyncLog>, b: seq<SyncLog>, gateway: Id, batch: Id)
    requires SameLogs(a, b)
    ensures match FindLog(a, gateway, batch)
            case None => FindLog(b, gateway, batch).None?
            case Some(l) => FindLog(b, gateway, batch).Some? && NormalLog(l) == NormalLog(FindLog(b, gateway, batch).value)
    decreases |a|
  {
    if a != [] {
      assert NormalLog(a[0]) == NormalLog(b[0]);
      assert SameLogs(a[1..], b[1..]);
      SameFindLog(a[1..], b[1..], gateway, batch);
    }
  }

  lemma {:induction false} SameTimes(items: seq<Item>, now: Time, maxFuture: Time)
    ensures |DecodeItems(EncodeItems(items))| == |items|
    ensures FirstTooFar(DecodeItems(EncodeItems(items)), now, maxFuture) == FirstTooFar(items, now, maxFuture)
    decreases |items|
  {
    if items != [] {
      SameTimes(items[1..], now, maxFuture);
      var wire := EncodeItems(items);
      assert wire[1..] == EncodeItems(items[1..]);
      assert DecodeItems(wire)[1..] == DecodeItems(wire[1..]);
    }
  }

  /**
   From related databases, pushing a batch over REST and sending its wire form over gRPC have the same
   outcome: the same error and counter, or the same counts, triage ids and related databases.
   */
  lemma BatchSimulated(a: Db, b: Db, counter: int, s: Settings, body: Body, now: Time, fault: Option<int>)
    requires SameDbs(a, b) && FaithfulBatch(body.reports)
    ensures var decoded := Decode(Encode(body));
            SameBatchOutcomes(ApplyBatch(a, counter, s, body, body.gateway, body.batch, now, fault),
                              ApplyBatch(b, counter, s, decoded, decoded.gateway, decoded.batch, now, fault))
  {
    var decoded := Decode(Encode(body));
    SameTimes(body.reports, now, s.maxFutureSkew);
    SameFindLog(a.logs, b.logs, body.gateway, body.batch);
    assert Precheck(s, body, body.gateway, body.batch, now) == Precheck(s, decoded, body.gateway, body.batch, now);
    if Precheck(s, body, body.gateway, body.batch, now).None? && FindLog(a.logs, body.gateway, body.batch).None? {
      MergeSimulated(a, b, counter, s, body, now, fault);
    }
  }

  lemma MergeSimulated(a: Db, b: Db, counter: int, s: Settings, body: Body, now: Time, fault: Option<int>)
    requires SameDbs(a, b) && FaithfulBatch(body.reports)
    ensures SameBatchOutcomes(MergeBatch(a, counter, s, body, now, fault),
                              MergeBatch(b, counter, s, Decode(Encode(body)), now, fault))
  {
    var decoded := Decode(Encode(body));
    var gateways := SeeGateway(a.gateways, body, now, s.requireAuth);
    assert GatewayNameOf(decoded) == GatewayNameOf(body);
    assert SeeGateway(b.gateways, decoded, now, s.requireAuth) == gateways;
    var known := body.gateway in gateways;
    var p, q := Progress(a.reports, counter, 0, [], []), Progress(b.reports, counter, 0, [], []);
    LoopSimulated(p, q, body.reports, body.gateway, known, fault);
    var x := ItemLoop(p, body.reports, body.gateway, known, fault);
    var y := ItemLoop(q, decoded.reports, body.gateway, known, fault);
    if x.Running? && known {
      var la, lb := LogOf(body, x.progress), LogOf(decoded, y.progress);
      assert NormalLog(la) == NormalLog(lb) && SameAudits(la.audit, lb.audit);
      assert SameLogs(a.logs + [la], b.logs + [lb]);
    }
  }
}
