/**
 The effect of one pushed batch on the database: what each item does to the `reports` table, the
 item loop with its faults, and the transaction around it. Sequence numbers are handed out by a
 counter that a rollback does not turn back.
 */
module MergeService {
  import opened Options
  import opened Reports
  import opened MergePolicy
  import opened Ordering

  datatype Error =
    | HeaderMismatch
    | PayloadTooLarge
    | TooFarInFuture(report: Id)
    | KindConflict(report: Id)
    | IdCollision(report: Id)
    | UnknownGateway
    | SimulatedFault

  datatype Reason = NoopSosImmutable | NoopTombstoneBlocksResurrection | NoopLwwLoser

  datatype Audit = Audit(reportId: Id, kind: Kind, segmentKey: Option<string>, reason: Reason,
                         canonicalSeqId: Option<int>)

  // ---- One item ----

  function SnapshotOf(id: Id, r: Row): Snapshot {
    Snapshot(id, r.updatedAt, r.gateway, r.isTombstone, r.seqId)
  }

  /** The order of the canonical-row query: number, stamp, gateway (missing last), id, all descending. */
  predicate CanonicalBefore(t: Table, a: Id, b: Id) {
    && a in t && b in t
    && (|| t[a].seqId > t[b].seqId
        || (t[a].seqId == t[b].seqId
            && Greater(WinnerTuple(t[a].updatedAt, GatewayRank(t[a].gateway), a),
                       WinnerTuple(t[b].updatedAt, GatewayRank(t[b].gateway), b))))
  }

  function SegmentRows(t: Table, kind: Kind, key: string): set<Id> {
    set id | id in t && t[id].kind == kind && t[id].segmentKey == Some(key)
  }

  function CanonicalOrder(t: Table): (Id, Id) -> bool {
    (a: Id, b: Id) => CanonicalBefore(t, a, b)
  }

  ghost function Canonical(t: Table, kind: Kind, key: string): Option<Id> {
    var rows := SegmentRows(t, kind, key);
    if rows == {} then None else Some(First(rows, CanonicalOrder(t)))
  }

  /** The row a road or supply item is merged with. */
  ghost function ExistingRow(t: Table, item: Item): Option<Id> {
    if HasKey(item.segmentKey) then Canonical(t, item.kind, item.segmentKey.value)
    else if item.id in t then Some(item.id)
    else None
  }

  function SosRow(item: Item, gateway: Id, seqId: int): Row {
    Row(Sos, item.segmentKey, item.status, item.payload, item.createdAt, item.updatedAt, Some(gateway),
        None, seqId, false, Pending, None)
  }

  function RowOf(d: Decision, gateway: Id, seqId: int): Row {
    Row(d.kind, d.segmentKey, d.status, d.payload, d.createdAt, d.updatedAt, Some(gateway),
        d.deletedAt, seqId, d.isTombstone, Pending, None)
  }

  datatype ItemOutcome =
    | Touched(reports: Table, counter: int, rowId: Id)
    | Skipped(audit: Audit)
    | Refused(error: Error, counter: int)

  ghost function ApplySos(t: Table, counter: int, item: Item, gateway: Id): ItemOutcome {
    if item.id in t && !t[item.id].kind.Sos? then
      Refused(KindConflict(item.id), counter)
    else
      var existing := if item.id in t then Some(SnapshotOf(item.id, t[item.id])) else None;
      if DecideSos(existing).Noop? then
        Skipped(Audit(item.id, Sos, item.segmentKey, NoopSosImmutable, None))
      else
        Touched(t[item.id := SosRow(item, gateway, counter + 1)], counter + 1, item.id)
  }

  ghost function ApplyRoadLike(t: Table, counter: int, item: Item, gateway: Id): ItemOutcome {
    if !HasKey(item.segmentKey) && item.id in t && t[item.id].kind != item.kind then
      Refused(KindConflict(item.id), counter)
    else
      var existing := ExistingRow(t, item);
      var snap := if existing.None? then None else Some(SnapshotOf(existing.value, t[existing.value]));
      Carry(t, counter, item, gateway, snap, DecideRoadLike(item, gateway, snap))
  }

  /** Carrying out a decision; an insert whose id is taken violates the primary key. */
  function Carry(t: Table, counter: int, item: Item, gateway: Id, snap: Option<Snapshot>, d: Decision): ItemOutcome {
    match d.action
    case Noop =>
      Skipped(if snap.Some? && snap.value.isTombstone && !IncomingIsTombstone(item)
              then Audit(item.id, item.kind, item.segmentKey, NoopTombstoneBlocksResurrection, Some(snap.value.seqId))
              else Audit(item.id, item.kind, item.segmentKey, NoopLwwLoser, None))
    case Insert =>
      if d.rowId in t then Refused(IdCollision(d.rowId), counter + 1)
      else Touched(t[d.rowId := RowOf(d, gateway, counter + 1)], counter + 1, d.rowId)
    case Update =>
      Touched(t[d.rowId := RowOf(d, gateway, counter + 1)], counter + 1, d.rowId)
  }

  ghost function ApplyItem(t: Table, counter: int, item: Item, gateway: Id): ItemOutcome {
    if item.kind.Sos? then ApplySos(t, counter, item, gateway)
    else ApplyRoadLike(t, counter, item, gateway)
  }

  lemma CanonicalSpec(t: Table, kind: Kind, key: string)
    ensures match Canonical(t, kind, key)
            case None => forall id :: !InSegment(t, kind, key, id)
            case Some(id) => InSegment(t, kind, key, id)
                             && forall j :: InSegment(t, kind, key, j) ==> t[j].seqId <= t[id].seqId
  {
    var rows := SegmentRows(t, kind, key);
    assert forall id :: InSegment(t, kind, key, id) <==> id in rows;
    if rows != {} {
      assert IsFirst(rows, CanonicalOrder(t), First(rows, CanonicalOrder(t)));
    }
  }

  /** The row an item leaves when it is inserted or wins: the same columns either way. */
  function WrittenRow(item: Item, gateway: Id, seqId: int): Row {
    if item.kind.Sos? then SosRow(item, gateway, seqId)
    else RowOf(DecideRoadLike(item, gateway, None), gateway, seqId)
  }

  /**
   The item beats this row: it is a tombstone if the row is one, and it has the greater stamp, or the
   same one and the greater id.
   */
  predicate Replaces(item: Item, gateway: Id, id: Id, r: Row) {
    && (r.isTombstone ==> IncomingIsTombstone(item))
    && (|| StampLess(RowStamp(r), Stamp(item.updatedAt, gateway))
        || (RowStamp(r) == Stamp(item.updatedAt, gateway) && item.id > id))
  }

  /** The row is in the segment the item names, or if it names none, has the item's id. */
  predicate Addressed(item: Item, id: Id, r: Row) {
    r.kind == item.kind && if HasKey(item.segmentKey) then r.segmentKey == item.segmentKey else id == item.id
  }

  /**
   A write replaces the row the item addresses, which must lose to it, or adds one under the item's id
   where there is none.
   */
  lemma RoadLikeWrites(t: Table, counter: int, item: Item, gateway: Id)
    requires TableInv(t, counter) && !item.kind.Sos?
    ensures match ApplyRoadLike(t, counter, item, gateway)
            case Touched(t', c', id) =>
              && c' == counter + 1
              && t' == t[id := WrittenRow(item, gateway, counter + 1)]
              && (if id in t then Addressed(item, id, t[id]) && Replaces(item, gateway, id, t[id])
                  else id == item.id && forall a :: a in t ==> !Addressed(item, a, t[a]))
              && (id in t ==> RowEvolves(t[id], WrittenRow(item, gateway, counter + 1)))
              && (HasKey(item.segmentKey) ==>
                    forall a :: a in t && t[a].kind == item.kind && t[a].segmentKey == item.segmentKey ==> a == id)
            case Skipped(audit) => audit.reportId == item.id
            case Refused(_, c') => counter <= c' <= counter + 1
  {
    if HasKey(item.segmentKey) {
      CanonicalSpec(t, item.kind, item.segmentKey.value);
      assert forall a :: a in t && t[a].kind == item.kind && t[a].segmentKey == item.segmentKey
                         ==> InSegment(t, item.kind, item.segmentKey.value, a);
    }
  }

  /** One item rewrites at most one row, under the next number, and keeps the table invariant. */
  ghost predicate ItemLawful(t: Table, counter: int, item: Item, gateway: Id, outcome: ItemOutcome) {
    match outcome
    case Touched(t', c', id) =>
      && c' == counter + 1
      && TableInv(t', c')
      && Advances(t, counter, t', c', {id})
      && t'[id] == WrittenRow(item, gateway, c')
    case Skipped(audit) => audit.reportId == item.id
    case Refused(_, c') => counter <= c' <= counter + 1
  }

  lemma ItemAdvances(t: Table, counter: int, item: Item, gateway: Id)
    requires TableInv(t, counter)
    ensures ItemLawful(t, counter, item, gateway, ApplyItem(t, counter, item, gateway))
  {
    var row := WrittenRow(item, gateway, counter + 1);
    if item.kind.Sos? {
      if item.id !in t {
        PutRow(t, counter, item.id, row);
      }
    } else {
      RoadLikeWrites(t, counter, item, gateway);
      var outcome := ApplyRoadLike(t, counter, item, gateway);
      if outcome.Touched? {
        PutRow(t, counter, outcome.rowId, row);
      }
    }
  }

  /**
   An item is skipped for a reason: its SOS row exists already, a tombstone stands in the way of a live
   item, or the row it would replace is stamped no earlier.
   */
  lemma SkipsAreJustified(t: Table, counter: int, item: Item, gateway: Id)
    requires TableInv(t, counter) && ApplyItem(t, counter, item, gateway).Skipped?
    ensures var a := ApplyItem(t, counter, item, gateway).audit;
            && a.reportId == item.id && a.kind == item.kind && a.segmentKey == item.segmentKey
            && (item.kind.Sos? ==> a.reason == NoopSosImmutable && item.id in t && t[item.id].kind.Sos?)
            && (!item.kind.Sos? ==>
                  exists id :: id in t && Addressed(item, id, t[id]) && !Replaces(item, gateway, id, t[id])
                    && (match a.reason
                        case NoopSosImmutable => false
                        case NoopTombstoneBlocksResurrection =>
                          t[id].isTombstone && !IncomingIsTombstone(item) && a.canonicalSeqId == Some(t[id].seqId)
                        case NoopLwwLoser =>
                          (t[id].isTombstone ==> IncomingIsTombstone(item))
                          && !StampLess(RowStamp(t[id]), Stamp(item.updatedAt, gateway))))
  {
    if !item.kind.Sos? {
      if HasKey(item.segmentKey) {
        CanonicalSpec(t, item.kind, item.segmentKey.value);
      }
      var id := ExistingRow(t, item).value;
      assert id in t;
    }
  }

  // ---- The item loop ----

  datatype Progress = Progress(reports: Table, counter: int, touches: int, audit: seq<Audit>, triageIds: seq<Id>)

  datatype Loop = Running(progress: Progress) | Failed(error: Error, counter: int)

  /**
   One turn of the loop: apply, flush, and then possibly fail. `known` says whether the gateway row
   the foreign key points at exists; `fault` is a failure injected once so many rows were touched.
   */
  ghost function ItemTurn(p: Progress, item: Item, gateway: Id, known: bool, fault: Option<int>): Loop {
    match ApplyItem(p.reports, p.counter, item, gateway)
    case Refused(error, counter) => Failed(error, counter)
    case Skipped(audit) => AfterFlush(p.(audit := p.audit + [audit]), fault)
    case Touched(reports, counter, id) =>
      if !known then Failed(UnknownGateway, counter)
      else AfterFlush(Progress(reports, counter, p.touches + 1, p.audit, p.triageIds + [id]), fault)
  }

  function AfterFlush(p: Progress, fault: Option<int>): Loop {
    if fault.Some? && p.touches >= fault.value then Failed(SimulatedFault, p.counter) else Running(p)
  }

  ghost function ItemLoop(p: Progress, items: seq<Item>, gateway: Id, known: bool, fault: Option<int>): Loop
    decreases |items|
  {
    if items == [] then Running(p)
    else
      match ItemTurn(p, items[0], gateway, known, fault)
      case Failed(error, counter) => Failed(error, counter)
      case Running(q) => ItemLoop(q, items[1..], gateway, known, fault)
  }

  ghost predicate ProgressInv(p: Progress) {
    TableInv(p.reports, p.counter)
  }

  /** The rows whose ids `q` reports beyond those `p` reported. */
  function NewIds(p: Progress, q: Progress): set<Id> {
    if |p.triageIds| <= |q.triageIds| then set id | id in q.triageIds[|p.triageIds|..] else {}
  }

  /** `q` continues `p` by `n` items; every one of them was either written or audited. */
  ghost predicate Continues(p: Progress, q: Progress, n: nat) {
    && ProgressInv(q)
    && p.triageIds <= q.triageIds
    && Advances(p.reports, p.counter, q.reports, q.counter, NewIds(p, q))
    && q.touches - p.touches == q.counter - p.counter == |q.triageIds| - |p.triageIds|
    && (q.touches - p.touches) + (|q.audit| - |p.audit|) == n
  }

  lemma TurnContinues(p: Progress, item: Item, gateway: Id, known: bool, fault: Option<int>)
    requires ProgressInv(p)
    ensures match ItemTurn(p, item, gateway, known, fault)
            case Running(q) => Continues(p, q, 1)
            case Failed(_, counter) => p.counter <= counter <= p.counter + 1
  {
    ItemAdvances(p.reports, p.counter, item, gateway);
    match ApplyItem(p.reports, p.counter, item, gateway) {
      case Touched(reports, counter, id) => WriteContinues(p, reports, id);
      case Skipped(audit) => SkipContinues(p, audit);
      case Refused(_, _) =>
    }
  }

  lemma WriteContinues(p: Progress, reports: Table, id: Id)
    requires TableInv(reports, p.counter + 1) && Advances(p.reports, p.counter, reports, p.counter + 1, {id})
    ensures Continues(p, Progress(reports, p.counter + 1, p.touches + 1, p.audit, p.triageIds + [id]), 1)
  {
    assert (p.triageIds + [id])[|p.triageIds|..] == [id];
  }

  lemma SkipContinues(p: Progress, audit: Audit)
    requires ProgressInv(p)
    ensures Continues(p, p.(audit := p.audit + [audit]), 1)
  {
    assert p.triageIds[|p.triageIds|..] == [];
  }

  lemma ContinuesTrans(p: Progress, q: Progress, r: Progress, m: nat, n: nat)
    requires Continues(p, q, m) && Continues(q, r, n)
    ensures Continues(p, r, m + n)
  {
    NewIdsAdd(p, q, r);
    AdvancesTrans(p.reports, p.counter, q.reports, q.counter, NewIds(p, q), r.reports, r.counter, NewIds(q, r));
  }

  lemma NewIdsAdd(p: Progress, q: Progress, r: Progress)
    requires p.triageIds <= q.triageIds <= r.triageIds
    ensures NewIds(p, r) == NewIds(p, q) + NewIds(q, r)
  {
    assert r.triageIds[|p.triageIds|..] == q.triageIds[|p.triageIds|..] + r.triageIds[|q.triageIds|..];
  }

  /** The loop accounts for every item, and fails having used at most one number an item. */
  lemma {:induction false} LoopContinues(p: Progress, items: seq<Item>, gateway: Id, known: bool, fault: Option<int>)
    requires ProgressInv(p)
    ensures match ItemLoop(p, items, gateway, known, fault)
            case Running(q) => Continues(p, q, |items|)
            case Failed(_, counter) => p.counter <= counter <= p.counter + |items|
    decreases |items|
  {
    if items == [] {
      assert p.triageIds[|p.triageIds|..] == [];
    } else {
      TurnContinues(p, items[0], gateway, known, fault);
      match ItemTurn(p, items[0], gateway, known, fault) {
        case Failed(_, _) =>
        case Running(q) =>
          LoopContinues(q, items[1..], gateway, known, fault);
          match ItemLoop(q, items[1..], gateway, known, fault) {
            case Failed(_, _) =>
            case Running(r) => ContinuesTrans(p, q, r, 1, |items| - 1);
          }
      }
    }
  }

  ghost predicate WrittenFrom(r: Row, items: seq<Item>, gateway: Id) {
    exists i :: 0 <= i < |items| && r == WrittenRow(items[i], gateway, r.seqId)
  }

  /** Every row numbered above `counter` holds, column for column, what one of the items says. */
  ghost predicate AllWritten(t: Table, counter: int, items: seq<Item>, gateway: Id) {
    forall id :: id in t && t[id].seqId > counter ==> WrittenFrom(t[id], items, gateway)
  }

  lemma TurnWrites(p: Progress, item: Item, gateway: Id, known: bool, fault: Option<int>)
    requires ProgressInv(p)
    ensures match ItemTurn(p, item, gateway, known, fault)
            case Running(q) => AllWritten(q.reports, p.counter, [item], gateway)
            case Failed(_, _) => true
  {
    ItemAdvances(p.reports, p.counter, item, gateway);
    match ApplyItem(p.reports, p.counter, item, gateway) {
      case Touched(t, c, id) =>
        assert t[id] == WrittenRow([item][0], gateway, t[id].seqId);
        assert forall j :: j in t && j != id ==> t[j] == p.reports[j];
      case Skipped(_) =>
      case Refused(_, _) =>
    }
  }

  lemma WritesCompose(t: Table, c: int, t1: Table, c1: int, touched: set<Id>, before: int, item: Item,
                      items: seq<Item>, gateway: Id)
    requires Advances(t, c, t1, c1, touched)
    requires AllWritten(t, before, [item], gateway) && AllWritten(t1, c, items, gateway)
    ensures AllWritten(t1, before, [item] + items, gateway)
  {
    forall id | id in t1 && t1[id].seqId > before ensures WrittenFrom(t1[id], [item] + items, gateway) {
      if id in touched {
        var i :| 0 <= i < |items| && t1[id] == WrittenRow(items[i], gateway, t1[id].seqId);
        assert ([item] + items)[i + 1] == items[i];
      } else {
        assert WrittenFrom(t[id], [item], gateway);
        assert t1[id] == WrittenRow(([item] + items)[0], gateway, t1[id].seqId);
      }
    }
  }

  /** So does every row the item loop rewrote. */
  lemma {:induction false} LoopWrites(p: Progress, items: seq<Item>, gateway: Id, known: bool, fault: Option<int>)
    requires ProgressInv(p)
    ensures match ItemLoop(p, items, gateway, known, fault)
            case Running(q) => AllWritten(q.reports, p.counter, items, gateway)
            case Failed(_, _) => true
    decreases |items|
  {
    if items != [] {
      TurnWrites(p, items[0], gateway, known, fault);
      TurnContinues(p, items[0], gateway, known, fault);
      match ItemTurn(p, items[0], gateway, known, fault) {
        case Failed(_, _) =>
        case Running(q) =>
          LoopWrites(q, items[1..], gateway, known, fault);
          LoopContinues(q, items[1..], gateway, known, fault);
          match ItemLoop(q, items[1..], gateway, known, fault) {
            case Failed(_, _) =>
            case Running(r) =>
              WritesCompose(q.reports, q.counter, r.reports, r.counter, NewIds(q, r), p.counter, items[0], items[1..],
                            gateway);
              assert [items[0]] + items[1..] == items;
          }
      }
    }
  }

  // ---- The batch transaction ----

  datatype GatewayName = Given(name: string) | FromId(id: Id)

  datatype Gateway = Gateway(name: GatewayName, lastSeenAt: Time)

  const APPLIED := "applied"

  datatype SyncLog = SyncLog(gateway: Id, batch: Id, recordCount: int, appliedCount: int, status: string,
                             seqId: int, audit: seq<Audit>)

  datatype Db = Db(reports: Table, logs: seq<SyncLog>, gateways: map<Id, Gateway>)

  datatype Settings = Settings(maxItems: int, maxFutureSkew: Time, requireAuth: bool, triageEnabled: bool)

  datatype Body = Body(gateway: Id, batch: Id, name: Option<string>, reports: seq<Item>)

  datatype MergeResult = MergeResult(replay: bool, recordCount: int, appliedCount: int, status: string,
                                     triageIds: seq<Id>)

  datatype BatchOutcome =
    | Done(db: Db, counter: int, result: MergeResult)
    | Aborted(error: Error, counter: int)

  predicate TimestampsOk(item: Item, now: Time, maxFuture: Time) {
    item.createdAt <= now + maxFuture && item.updatedAt <= now + maxFuture
  }

  /** The first report with a timestamp too far ahead, if any. */
  function FirstTooFar(items: seq<Item>, now: Time, maxFuture: Time): (r: Option<Id>)
    ensures r.None? <==> forall i :: 0 <= i < |items| ==> TimestampsOk(items[i], now, maxFuture)
  {
    if items == [] then None
    else if !TimestampsOk(items[0], now, maxFuture) then Some(items[0].id)
    else
      var r := FirstTooFar(items[1..], now, maxFuture);
      assert forall i :: 1 <= i < |items| ==> items[i] == items[1..][i - 1];
      r
  }

  /** The stored log of a batch; `(gateway, batch)` is unique in `sync_logs`. */
  function FindLog(logs: seq<SyncLog>, gateway: Id, batch: Id): (r: Option<SyncLog>)
    ensures r.None? <==> forall i :: 0 <= i < |logs| ==> !(logs[i].gateway == gateway && logs[i].batch == batch)
    ensures r.Some? ==> r.value in logs && r.value.gateway == gateway && r.value.batch == batch
  {
    if logs == [] then None
    else if logs[0].gateway == gateway && logs[0].batch == batch then Some(logs[0])
    else
      var r := FindLog(logs[1..], gateway, batch);
      assert forall i :: 1 <= i < |logs| ==> logs[i] == logs[1..][i - 1];
      r
  }

  function GatewayNameOf(body: Body): GatewayName {
    if body.name.Some? && body.name.value != "" then Given(body.name.value) else FromId(body.gateway)
  }

  /** With gateway authentication on, only a provisioned gateway is updated; otherwise it is upserted. */
  function SeeGateway(gateways: map<Id, Gateway>, body: Body, now: Time, requireAuth: bool): map<Id, Gateway> {
    if requireAuth && body.gateway !in gateways then gateways
    else gateways[body.gateway := Gateway(GatewayNameOf(body), now)]
  }

  /** The checks made before the database is looked at. */
  function Precheck(s: Settings, body: Body, headerGateway: Id, headerBatch: Id, now: Time): Option<Error> {
    if body.gateway != headerGateway || body.batch != headerBatch then Some(HeaderMismatch)
    else if |body.reports| > s.maxItems then Some(PayloadTooLarge)
    else
      var late := FirstTooFar(body.reports, now, s.maxFutureSkew);
      if late.Some? then Some(TooFarInFuture(late.value)) else None
  }

  ghost function MergeBatch(db: Db, counter: int, s: Settings, body: Body, now: Time, fault: Option<int>): BatchOutcome {
    var gateways := SeeGateway(db.gateways, body, now, s.requireAuth);
    var known := body.gateway in gateways;
    match ItemLoop(Progress(db.reports, counter, 0, [], []), body.reports, body.gateway, known, fault)
    case Failed(error, c) => Aborted(error, c)
    case Running(p) =>
      if !known then Aborted(UnknownGateway, p.counter + 1)
      else Done(Db(p.reports, db.logs + [LogOf(body, p)], gateways), p.counter + 1, ResultOf(body, p))
  }

  /** The log row closing a batch takes a number of its own. */
  function LogOf(body: Body, p: Progress): SyncLog {
    SyncLog(body.gateway, body.batch, |body.reports|, p.touches, APPLIED, p.counter + 1, p.audit)
  }

  function ResultOf(body: Body, p: Progress): MergeResult {
    MergeResult(false, |body.reports|, p.touches, APPLIED, p.triageIds)
  }

  ghost function ApplyBatch(db: Db, counter: int, s: Settings, body: Body, headerGateway: Id, headerBatch: Id,
                            now: Time, fault: Option<int>): BatchOutcome
  {
    var error := Precheck(s, body, headerGateway, headerBatch, now);
    if error.Some? then Aborted(error.value, counter)
    else
      var log := FindLog(db.logs, body.gateway, body.batch);
      if log.Some? then
        Done(db, counter, MergeResult(true, log.value.recordCount, log.value.appliedCount, log.value.status, []))
      else
        MergeBatch(db, counter, s, body, now, fault)
  }

  // ---- What every reachable database satisfies ----

  /** Log numbers grow in commit order, are never a row's number, and one batch is logged once. */
  ghost predicate LogsInv(t: Table, logs: seq<SyncLog>, counter: int) {
    && (forall i :: 0 <= i < |logs| ==> 0 < logs[i].seqId <= counter)
    && (forall i, j :: 0 <= i < j < |logs| ==> logs[i].seqId < logs[j].seqId)
    && (forall i, id :: 0 <= i < |logs| && id in t ==> logs[i].seqId != t[id].seqId)
    && (forall i, j :: 0 <= i < j < |logs| ==> !(logs[i].gateway == logs[j].gateway && logs[i].batch == logs[j].batch))
  }

  ghost predicate DbInv(db: Db, counter: int) {
    TableInv(db.reports, counter) && LogsInv(db.reports, db.logs, counter)
  }

  /** A failed batch costs at most its numbers; a successful one keeps the invariant and only adds. */
  ghost predicate Lawful(db: Db, counter: int, items: nat, outcome: BatchOutcome) {
    match outcome
    case Aborted(_, c) => counter <= c <= counter + items + 1
    case Done(db', c, result) =>
      && DbInv(db', c)
      && Advances(db.reports, counter, db'.reports, c, set id | id in result.triageIds)
      && db.logs <= db'.logs
  }

  /**
   One push, whatever becomes of it. Numbers stay distinct and within the counter; the table only
   advances, by exactly the rows named for triage; logs only grow.
   */
  lemma BatchKeepsInv(db: Db, counter: int, s: Settings, body: Body, headerGateway: Id, headerBatch: Id,
                      now: Time, fault: Option<int>)
    requires DbInv(db, counter)
    ensures Lawful(db, counter, |body.reports|, ApplyBatch(db, counter, s, body, headerGateway, headerBatch, now, fault))
  {
    if Precheck(s, body, headerGateway, headerBatch, now).None? {
      if FindLog(db.logs, body.gateway, body.batch).None? {
        MergeKeepsInv(db, counter, s, body, now, fault);
      }
    }
  }

  lemma MergeKeepsInv(db: Db, counter: int, s: Settings, body: Body, now: Time, fault: Option<int>)
    requires DbInv(db, counter) && FindLog(db.logs, body.gateway, body.batch).None?
    ensures Lawful(db, counter, |body.reports|, MergeBatch(db, counter, s, body, now, fault))
  {
    var gateways := SeeGateway(db.gateways, body, now, s.requireAuth);
    var known := body.gateway in gateways;
    var looped := ItemLoop(Progress(db.reports, counter, 0, [], []), body.reports, body.gateway, known, fault);
    WholeLoop(db.reports, counter, body.reports, body.gateway, known, fault);
    if looped.Running? && known {
      var q := looped.progress;
      assert MergeBatch(db, counter, s, body, now, fault)
          == Done(Db(q.reports, db.logs + [LogOf(body, q)], gateways), q.counter + 1, ResultOf(body, q));
      CommitKeepsInv(db, counter, q, body, gateways);
    } else {
      assert MergeBatch(db, counter, s, body, now, fault).Aborted?;
    }
  }

  /** The loop from its start: everything it reports, it did in this batch. */
  lemma WholeLoop(t: Table, counter: int, items: seq<Item>, gateway: Id, known: bool, fault: Option<int>)
    requires TableInv(t, counter)
    ensures match ItemLoop(Progress(t, counter, 0, [], []), items, gateway, known, fault)
            case Running(q) =>
              && ProgressInv(q)
              && Advances(t, counter, q.reports, q.counter, set id | id in q.triageIds)
              && q.touches == |q.triageIds| == q.counter - counter
              && q.touches + |q.audit| == |items|
            case Failed(_, c) => counter <= c <= counter + |items|
  {
    var p := Progress(t, counter, 0, [], []);
    LoopContinues(p, items, gateway, known, fault);
    match ItemLoop(p, items, gateway, known, fault) {
      case Failed(_, _) =>
      case Running(q) =>
        assert q.triageIds[0..] == q.triageIds;
        assert NewIds(p, q) == set id | id in q.triageIds;
    }
  }

  lemma CommitKeepsInv(db: Db, counter: int, q: Progress, body: Body, gateways: map<Id, Gateway>)
    requires DbInv(db, counter) && FindLog(db.logs, body.gateway, body.batch).None?
    requires ProgressInv(q) && Advances(db.reports, counter, q.reports, q.counter, set id | id in q.triageIds)
    ensures Lawful(db, counter, |body.reports|,
                   Done(Db(q.reports, db.logs + [LogOf(body, q)], gateways), q.counter + 1, ResultOf(body, q)))
  {
    var touched := set id | id in q.triageIds;
    SkipNumber(db.reports, counter, q.reports, q.counter, touched);
    LogAppended(db, counter, q.reports, q.counter, touched, LogOf(body, q));
  }

  /** A log under the next number joins logs and rows that all have earlier ones. */
  lemma LogAppended(db: Db, counter: int, t: Table, c: int, touched: set<Id>, log: SyncLog)
    requires DbInv(db, counter) && TableInv(t, c) && Advances(db.reports, counter, t, c, touched)
    requires log.seqId == c + 1 && FindLog(db.logs, log.gateway, log.batch).None?
    ensures LogsInv(t, db.logs + [log], c + 1)
  {
    forall i, id | 0 <= i < |db.logs| && id in t ensures db.logs[i].seqId != t[id].seqId {
      if id !in touched {
        assert t[id] == db.reports[id];
      }
    }
  }

  /** Every row a batch rewrote holds what one of its items says. */
  lemma BatchWrites(db: Db, counter: int, s: Settings, body: Body, now: Time, fault: Option<int>)
    requires DbInv(db, counter)
    ensures match MergeBatch(db, counter, s, body, now, fault)
            case Aborted(_, _) => true
            case Done(db', _, _) => AllWritten(db'.reports, counter, body.reports, body.gateway)
  {
    var known := body.gateway in SeeGateway(db.gateways, body, now, s.requireAuth);
    LoopWrites(Progress(db.reports, counter, 0, [], []), body.reports, body.gateway, known, fault);
  }

  // ---- Accounting ----

  /** A freshly merged batch: every record was applied or audited, and each use of the counter shows. */
  lemma BatchAccounting(db: Db, counter: int, s: Settings, body: Body, now: Time, fault: Option<int>)
    requires DbInv(db, counter) && FindLog(db.logs, body.gateway, body.batch).None?
    ensures match MergeBatch(db, counter, s, body, now, fault)
            case Aborted(_, _) => true
            case Done(db', c, result) =>
              && |db'.logs| == |db.logs| + 1
              && var log := db'.logs[|db.logs|];
                 && result.recordCount == log.recordCount == |body.reports|
                 && result.appliedCount == log.appliedCount == |result.triageIds|
                 && result.recordCount == result.appliedCount + |log.audit|
                 && log.seqId == c == counter + result.appliedCount + 1
                 && result.status == log.status == "applied"
                 && (forall id :: id in result.triageIds <==> id in db'.reports && db'.reports[id].seqId > counter)
  {
    var known := body.gateway in SeeGateway(db.gateways, body, now, s.requireAuth);
    WholeLoop(db.reports, counter, body.reports, body.gateway, known, fault);
    match ItemLoop(Progress(db.reports, counter, 0, [], []), body.reports, body.gateway, known, fault) {
      case Failed(_, _) =>
      case Running(q) => TriagedAreNew(db.reports, counter, q);
    }
  }

  lemma TriagedAreNew(t: Table, counter: int, q: Progress)
    requires TableInv(t, counter) && Advances(t, counter, q.reports, q.counter, set id | id in q.triageIds)
    ensures forall id :: id in q.triageIds <==> id in q.reports && q.reports[id].seqId > counter
  {
    forall id ensures id in q.triageIds <==> id in q.reports && q.reports[id].seqId > counter {
      assert id in q.triageIds <==> id in (set j | j in q.triageIds);
    }
  }
}
