/**
 Why a batch came out as it did, told item by item: which rows it wrote and over what, the true reason
 for every event in its log, and the true cause of every failure.
 */
module Explanations {
  import opened Options
  import opened Reports
  import opened MergePolicy
  import opened MergeService

  // ---- What may be said of one item and the table it met ----

  predicate Keyed(item: Item) {
    item.segmentKey.Some? && item.segmentKey.value != ""
  }

  predicate Deletes(item: Item) {
    item.deletedAt.Some? || item.isTombstone == Some(true)
  }

  /** The row a road or supply item is about: that of its segment, or the one with its id. */
  predicate About(item: Item, id: Id, r: Row) {
    r.kind == item.kind && if Keyed(item) then r.segmentKey == item.segmentKey else id == item.id
  }

  /** Later, or at the same time from a greater gateway, or from the same gateway with a greater id. */
  predicate Wins(item: Item, gateway: Id, id: Id, r: Row) {
    || item.updatedAt > r.updatedAt
    || (item.updatedAt == r.updatedAt
        && match r.gateway
           case None => true
           case Some(g) => gateway > g || (gateway == g && item.id > id))
  }

  /** The columns of a row that the item has just written under number `n`. */
  predicate Written(item: Item, gateway: Id, n: int, r: Row) {
    && r.kind == item.kind && r.segmentKey == item.segmentKey && r.status == item.status && r.payload == item.payload
    && r.createdAt == item.createdAt && r.updatedAt == item.updatedAt
    && r.gateway == Some(gateway) && r.seqId == n
    && r.triage == Pending && r.score == None
    && (if item.kind.Sos? || !Deletes(item) then !r.isTombstone && r.deletedAt == None
        else r.isTombstone
             && r.deletedAt == Some(if item.deletedAt.Some? then item.deletedAt.value else item.updatedAt))
  }

  /** The item was written to row `id`, over a row it beats, or under its own id where there was none. */
  ghost predicate Writes(t: Table, t': Table, item: Item, gateway: Id, n: int, id: Id) {
    && t'.Keys == t.Keys + {id}
    && (forall j :: j in t && j != id ==> t'[j] == t[j])
    && Written(item, gateway, n, t'[id])
    && (if id in t then
          && !item.kind.Sos? && About(item, id, t[id]) && Wins(item, gateway, id, t[id])
          && (t[id].isTombstone ==> Deletes(item))
        else
          id == item.id && (item.kind.Sos? || forall j :: j in t ==> !About(item, j, t[j])))
  }

  /** The event names this item and a reason that was true of the table the item met. */
  ghost predicate TrueOf(t: Table, item: Item, gateway: Id, e: Audit) {
    && e.reportId == item.id && e.kind == item.kind && e.segmentKey == item.segmentKey
    && match e.reason
       case NoopSosImmutable =>
         item.kind.Sos? && item.id in t && t[item.id].kind.Sos? && e.canonicalSeqId == None
       case NoopTombstoneBlocksResurrection =>
         !item.kind.Sos? && !Deletes(item)
         && exists id :: id in t && About(item, id, t[id]) && t[id].isTombstone && e.canonicalSeqId == Some(t[id].seqId)
       case NoopLwwLoser =>
         !item.kind.Sos? && e.canonicalSeqId == None
         && exists id :: id in t && About(item, id, t[id]) && !Wins(item, gateway, id, t[id])
                         && (t[id].isTombstone ==> Deletes(item))
  }

  /** The error names this item, whose id is taken and does not lead to a row it could be merged with. */
  ghost predicate Blocks(t: Table, item: Item, error: Error) {
    && item.id in t
    && match error
       case KindConflict(x) => x == item.id && t[item.id].kind != item.kind && (item.kind.Sos? || !Keyed(item))
       case IdCollision(x) => x == item.id && !item.kind.Sos? && Keyed(item) && forall j :: j in t ==> !About(item, j, t[j])
       case _ => false
  }

  lemma SosExplained(t: Table, counter: int, item: Item, gateway: Id)
    requires item.kind.Sos?
    ensures match ApplySos(t, counter, item, gateway)
            case Touched(t', c, id) => c == counter + 1 && Writes(t, t', item, gateway, c, id)
            case Skipped(e) => TrueOf(t, item, gateway, e)
            case Refused(error, c) => Blocks(t, item, error) && error.KindConflict? && c == counter
  {
  }

  /** The row the merge looks up is the one the item is about. */
  lemma ExistingIsAbout(t: Table, item: Item)
    requires !item.kind.Sos? && !(!Keyed(item) && item.id in t && t[item.id].kind != item.kind)
    ensures match ExistingRow(t, item)
            case None => forall j :: j in t ==> !About(item, j, t[j])
            case Some(id) => id in t && About(item, id, t[id])
  {
    if Keyed(item) {
      CanonicalSpec(t, item.kind, item.segmentKey.value);
      assert forall j :: j in t ==> (About(item, j, t[j]) <==> InSegment(t, item.kind, item.segmentKey.value, j));
    }
  }

  lemma WinsIff(item: Item, gateway: Id, id: Id, r: Row)
    ensures IncomingBeatsExisting(item, gateway, SnapshotOf(id, r)) <==> Wins(item, gateway, id, r)
  {
  }

  lemma InsertExplained(t: Table, counter: int, item: Item, gateway: Id)
    requires !item.kind.Sos? && forall j :: j in t ==> !About(item, j, t[j])
    requires !Keyed(item) ==> item.id !in t
    ensures match Carry(t, counter, item, gateway, None, DecideRoadLike(item, gateway, None))
            case Touched(t', c, id) => c == counter + 1 && Writes(t, t', item, gateway, c, id)
            case Skipped(e) => false
            case Refused(error, c) => Blocks(t, item, error) && error.IdCollision? && c == counter + 1
  {
  }

  lemma MergeExplained(t: Table, counter: int, item: Item, gateway: Id, id: Id)
    requires !item.kind.Sos? && id in t && About(item, id, t[id])
    ensures var snap := Some(SnapshotOf(id, t[id]));
            match Carry(t, counter, item, gateway, snap, DecideRoadLike(item, gateway, snap))
            case Touched(t', c, id') => id' == id && c == counter + 1 && Writes(t, t', item, gateway, c, id)
            case Skipped(e) => TrueOf(t, item, gateway, e)
            case Refused(_, _) => false
  {
    WinsIff(item, gateway, id, t[id]);
  }

  /** One item writes, is skipped for a true reason, or is refused for a true cause. */
  lemma ItemExplained(t: Table, counter: int, item: Item, gateway: Id)
    ensures match ApplyItem(t, counter, item, gateway)
            case Touched(t', c, id) => c == counter + 1 && Writes(t, t', item, gateway, c, id)
            case Skipped(e) => TrueOf(t, item, gateway, e)
            case Refused(error, c) => Blocks(t, item, error) && c == if error.IdCollision? then counter + 1 else counter
  {
    if item.kind.Sos? {
      SosExplained(t, counter, item, gateway);
    } else if Keyed(item) || item.id !in t || t[item.id].kind == item.kind {
      ExistingIsAbout(t, item);
      match ExistingRow(t, item) {
        case None => InsertExplained(t, counter, item, gateway);
        case Some(id) => MergeExplained(t, counter, item, gateway, id);
      }
    }
  }

  lemma Exclusive(t: Table, item: Item, gateway: Id, e: Audit, error: Error, t': Table, n: int, id: Id)
    requires UniqueSegments(t)
    ensures !(TrueOf(t, item, gateway, e) && Blocks(t, item, error))
    ensures !(TrueOf(t, item, gateway, e) && Writes(t, t', item, gateway, n, id))
    ensures !(Blocks(t, item, error) && Writes(t, t', item, gateway, n, id))
  {
  }

  // ---- Item by item ----

  /** The tables the items met, and which items were skipped and which written. */
  datatype Trace = Trace(tables: seq<Table>, skipped: seq<nat>, written: seq<nat>)

  ghost predicate Ascending(ix: seq<nat>, n: nat) {
    && (forall k :: 0 <= k < |ix| ==> ix[k] < n)
    && (forall k, l :: 0 <= k < l < |ix| ==> ix[k] < ix[l])
  }

  /** Every item was either skipped or written, in order. */
  ghost predicate Sorts(tr: Trace, n: nat) {
    && |tr.tables| == n + 1
    && Ascending(tr.skipped, n) && Ascending(tr.written, n)
    && forall i :: 0 <= i < n ==> (i in tr.skipped <==> i !in tr.written)
  }

  /** Item `i` changed nothing and left the event `e`, which is true of the table it met. */
  ghost predicate SkippedAt(tr: Trace, items: seq<Item>, gateway: Id, i: nat, e: Audit)
    requires i < |items| && |tr.tables| == |items| + 1
  {
    tr.tables[i + 1] == tr.tables[i] && TrueOf(tr.tables[i], items[i], gateway, e)
  }

  /** Item `i` wrote row `id` under number `n`. */
  ghost predicate WrittenAt(tr: Trace, items: seq<Item>, gateway: Id, i: nat, n: int, id: Id)
    requires i < |items| && |tr.tables| == |items| + 1
  {
    Writes(tr.tables[i], tr.tables[i + 1], items[i], gateway, n, id)
  }

  /** The skipped items left one event each, true of the table they met. */
  ghost predicate EventsTrue(tr: Trace, items: seq<Item>, gateway: Id, events: seq<Audit>)
    requires Sorts(tr, |items|)
  {
    && |events| == |tr.skipped|
    && forall k :: 0 <= k < |events| ==> SkippedAt(tr, items, gateway, tr.skipped[k], events[k])
  }

  /** The written items wrote one row each, under the next numbers. */
  ghost predicate RowsWritten(tr: Trace, items: seq<Item>, gateway: Id, counter: int, ids: seq<Id>)
    requires Sorts(tr, |items|)
  {
    && |ids| == |tr.written|
    && forall k :: 0 <= k < |ids| ==> WrittenAt(tr, items, gateway, tr.written[k], counter + k + 1, ids[k])
  }

  ghost predicate Explains(tr: Trace, items: seq<Item>, gateway: Id, counter: int, t: Table, t': Table,
                           events: seq<Audit>, ids: seq<Id>) {
    && Sorts(tr, |items|) && tr.tables[0] == t && tr.tables[|items|] == t'
    && EventsTrue(tr, items, gateway, events) && RowsWritten(tr, items, gateway, counter, ids)
  }

  function Shift(ix: seq<nat>): seq<nat> {
    seq(|ix|, k requires 0 <= k < |ix| => ix[k] + 1)
  }

  /** The trace of one more item at the front, which was skipped, or written. */
  function Prepend(t: Table, skipped: bool, tr: Trace): Trace {
    Trace([t] + tr.tables,
          (if skipped then [0] else []) + Shift(tr.skipped),
          (if skipped then [] else [0]) + Shift(tr.written))
  }

  lemma ShiftMembers(ix: seq<nat>, head: seq<nat>, i: nat)
    requires head == [] || head == [0]
    ensures i in head + Shift(ix) <==> if i == 0 then head != [] else i - 1 in ix
  {
    var all := head + Shift(ix);
    if i > 0 && i - 1 in ix {
      var k :| 0 <= k < |ix| && ix[k] == i - 1;
      assert all[|head| + k] == i;
    }
    if i in all {
      var k :| 0 <= k < |all| && all[k] == i;
      assert k >= |head| ==> ix[k - |head|] == i - 1;
    }
    assert head != [] ==> all[0] == 0;
  }

  lemma PrependSorts(t: Table, skipped: bool, tr: Trace, n: nat)
    requires Sorts(tr, n)
    ensures Sorts(Prepend(t, skipped, tr), n + 1)
  {
    var tr' := Prepend(t, skipped, tr);
    forall i | 0 <= i < n + 1 ensures i in tr'.skipped <==> i !in tr'.written {
      ShiftMembers(tr.skipped, if skipped then [0] else [], i);
      ShiftMembers(tr.written, if skipped then [] else [0], i);
    }
  }

  /** What was said of an item is said of it after another one is put in front. */
  lemma PrependAt(tr: Trace, item: Item, rest: seq<Item>, gateway: Id, t: Table, skipped: bool, i: nat)
    requires i < |rest| && |tr.tables| == |rest| + 1
    ensures var tr', items := Prepend(t, skipped, tr), [item] + rest;
            && (forall e :: SkippedAt(tr', items, gateway, i + 1, e) <==> SkippedAt(tr, rest, gateway, i, e))
            && (forall n, id :: WrittenAt(tr', items, gateway, i + 1, n, id) <==> WrittenAt(tr, rest, gateway, i, n, id))
  {
    var tr', items := Prepend(t, skipped, tr), [item] + rest;
    assert items[i + 1] == rest[i];
    assert tr'.tables[i + 1] == tr.tables[i] && tr'.tables[i + 2] == tr.tables[i + 1];
  }

  lemma PrependFirst(tr: Trace, item: Item, rest: seq<Item>, gateway: Id, t: Table, skipped: bool)
    requires |tr.tables| == |rest| + 1
    ensures var tr', items := Prepend(t, skipped, tr), [item] + rest;
            && (forall e :: tr.tables[0] == t && TrueOf(t, item, gateway, e) ==> SkippedAt(tr', items, gateway, 0, e))
            && (forall n, id :: Writes(t, tr.tables[0], item, gateway, n, id) ==> WrittenAt(tr', items, gateway, 0, n, id))
  {
    var tr' := Prepend(t, skipped, tr);
    assert tr'.tables[0] == t && tr'.tables[1] == tr.tables[0] && ([item] + rest)[0] == item;
  }

  lemma PrependEvents(tr: Trace, item: Item, rest: seq<Item>, gateway: Id, t: Table, head: seq<Audit>, events: seq<Audit>)
    requires Sorts(tr, |rest|) && EventsTrue(tr, rest, gateway, events)
    requires head == [] || (|head| == 1 && tr.tables[0] == t && TrueOf(t, item, gateway, head[0]))
    requires Sorts(Prepend(t, head != [], tr), |[item] + rest|)
    ensures EventsTrue(Prepend(t, head != [], tr), [item] + rest, gateway, head + events)
  {
    var tr', all := Prepend(t, head != [], tr), head + events;
    PrependFirst(tr, item, rest, gateway, t, head != []);
    forall k | 0 <= k < |all| ensures SkippedAt(tr', [item] + rest, gateway, tr'.skipped[k], all[k]) {
      if k >= |head| {
        assert tr'.skipped[k] == tr.skipped[k - |head|] + 1 && all[k] == events[k - |head|];
        PrependAt(tr, item, rest, gateway, t, head != [], tr.skipped[k - |head|]);
      }
    }
  }

  lemma RowsAfterSkip(tr: Trace, item: Item, rest: seq<Item>, gateway: Id, counter: int, t: Table, ids: seq<Id>)
    requires Sorts(tr, |rest|) && RowsWritten(tr, rest, gateway, counter, ids)
    requires Sorts(Prepend(t, true, tr), |[item] + rest|)
    ensures RowsWritten(Prepend(t, true, tr), [item] + rest, gateway, counter, ids)
  {
    var tr', items := Prepend(t, true, tr), [item] + rest;
    forall k | 0 <= k < |ids| ensures WrittenAt(tr', items, gateway, tr'.written[k], counter + k + 1, ids[k]) {
      assert tr'.written[k] == tr.written[k] + 1;
      PrependAt(tr, item, rest, gateway, t, true, tr.written[k]);
    }
  }

  lemma RowsAfterWrite(tr: Trace, item: Item, rest: seq<Item>, gateway: Id, counter: int, t: Table, id: Id, ids: seq<Id>)
    requires Sorts(tr, |rest|) && RowsWritten(tr, rest, gateway, counter + 1, ids)
    requires Writes(t, tr.tables[0], item, gateway, counter + 1, id)
    requires Sorts(Prepend(t, false, tr), |[item] + rest|)
    ensures RowsWritten(Prepend(t, false, tr), [item] + rest, gateway, counter, [id] + ids)
  {
    var tr', items, all := Prepend(t, false, tr), [item] + rest, [id] + ids;
    PrependFirst(tr, item, rest, gateway, t, false);
    forall k | 0 <= k < |all| ensures WrittenAt(tr', items, gateway, tr'.written[k], counter + k + 1, all[k]) {
      if k > 0 {
        assert tr'.written[k] == tr.written[k - 1] + 1 && all[k] == ids[k - 1];
        PrependAt(tr, item, rest, gateway, t, false, tr.written[k - 1]);
      }
    }
  }

  lemma PrependSkipped(tr: Trace, item: Item, rest: seq<Item>, gateway: Id, counter: int, t: Table, t': Table,
                       e: Audit, events: seq<Audit>, ids: seq<Id>)
    requires Explains(tr, rest, gateway, counter, t, t', events, ids) && TrueOf(t, item, gateway, e)
    ensures Explains(Prepend(t, true, tr), [item] + rest, gateway, counter, t, t', [e] + events, ids)
  {
    PrependSorts(t, true, tr, |rest|);
    PrependEvents(tr, item, rest, gateway, t, [e], events);
    RowsAfterSkip(tr, item, rest, gateway, counter, t, ids);
  }

  lemma PrependWritten(tr: Trace, item: Item, rest: seq<Item>, gateway: Id, counter: int, t: Table, t1: Table, t': Table,
                       id: Id, events: seq<Audit>, ids: seq<Id>)
    requires Explains(tr, rest, gateway, counter + 1, t1, t', events, ids)
    requires Writes(t, t1, item, gateway, counter + 1, id)
    ensures Explains(Prepend(t, false, tr), [item] + rest, gateway, counter, t, t', events, [id] + ids)
  {
    PrependSorts(t, false, tr, |rest|);
    PrependEvents(tr, item, rest, gateway, t, [], events);
    RowsAfterWrite(tr, item, rest, gateway, counter, t, id, ids);
    assert [] + events == events;
  }

  // ---- The item loop ----

  /** The items `items[..n]` went through and left `events` and `ids` behind the ones there were. */
  ghost predicate Passed(p: Progress, items: seq<Item>, gateway: Id, n: nat, q: Progress, tr: Trace)
    requires n <= |items|
  {
    && p.audit <= q.audit && p.triageIds <= q.triageIds
    && q.counter == p.counter + |tr.written| && q.touches == p.touches + |tr.written|
    && Explains(tr, items[..n], gateway, p.counter, p.reports, q.reports, q.audit[|p.audit|..], q.triageIds[|p.triageIds|..])
  }

  /** After `n` items, this is what stopped the loop. */
  ghost predicate Stopped(items: seq<Item>, gateway: Id, n: nat, t: Table, touches: int, counter: int, known: bool,
                          fault: Option<int>, error: Error, c: int)
    requires n <= |items|
  {
    match error
    case KindConflict(_) => n < |items| && Blocks(t, items[n], error) && c == counter
    case IdCollision(_) => n < |items| && Blocks(t, items[n], error) && c == counter + 1
    case UnknownGateway =>
      && !known && c == counter + 1
      && (n == |items| || exists t', id :: Writes(t, t', items[n], gateway, c, id))
    case SimulatedFault => n > 0 && fault.Some? && touches >= fault.value && c == counter
    case _ => false
  }

  lemma PassedNone(p: Progress, items: seq<Item>, gateway: Id)
    ensures Passed(p, items, gateway, 0, p, Trace([p.reports], [], []))
  {
    assert p.audit[|p.audit|..] == [] && p.triageIds[|p.triageIds|..] == [] && items[..0] == [];
  }

  lemma PassedSkip(p: Progress, e: Audit, items: seq<Item>, gateway: Id, n: nat, q: Progress, tr: Trace)
    requires n < |items| && Passed(p.(audit := p.audit + [e]), items[1..], gateway, n, q, tr)
    requires TrueOf(p.reports, items[0], gateway, e)
    ensures Passed(p, items, gateway, n + 1, q, Prepend(p.reports, true, tr))
  {
    var rest, m := items[1..][..n], |p.audit|;
    PrependSkipped(tr, items[0], rest, gateway, p.counter, p.reports, q.reports, e, q.audit[m + 1..],
                   q.triageIds[|p.triageIds|..]);
    assert items[..n + 1] == [items[0]] + rest;
    assert (p.audit + [e])[m] == e && q.audit[m..] == [e] + q.audit[m + 1..];
    assert |Prepend(p.reports, true, tr).written| == |tr.written|;
  }

  lemma PassedWrite(p: Progress, t: Table, id: Id, items: seq<Item>, gateway: Id, n: nat, q: Progress, tr: Trace)
    requires n < |items|
    requires Passed(Progress(t, p.counter + 1, p.touches + 1, p.audit, p.triageIds + [id]), items[1..], gateway, n, q, tr)
    requires Writes(p.reports, t, items[0], gateway, p.counter + 1, id)
    ensures Passed(p, items, gateway, n + 1, q, Prepend(p.reports, false, tr))
  {
    var rest, m := items[1..][..n], |p.triageIds|;
    PrependWritten(tr, items[0], rest, gateway, p.counter, p.reports, t, q.reports, id, q.audit[|p.audit|..],
                   q.triageIds[m + 1..]);
    assert items[..n + 1] == [items[0]] + rest;
    assert (p.triageIds + [id])[m] == id && q.triageIds[m..] == [id] + q.triageIds[m + 1..];
    assert |Prepend(p.reports, false, tr).written| == |tr.written| + 1;
  }

  lemma PassedMore(p: Progress, p1: Progress, items: seq<Item>, gateway: Id, known: bool, fault: Option<int>, n: nat,
                   q: Progress, tr: Trace) returns (tr': Trace)
    requires items != [] && ItemTurn(p, items[0], gateway, known, fault) == Running(p1)
    requires n < |items| && Passed(p1, items[1..], gateway, n, q, tr)
    ensures Passed(p, items, gateway, n + 1, q, tr')
  {
    ItemExplained(p.reports, p.counter, items[0], gateway);
    var outcome := ApplyItem(p.reports, p.counter, items[0], gateway);
    if outcome.Skipped? {
      PassedSkip(p, outcome.audit, items, gateway, n, q, tr);
    } else {
      PassedWrite(p, outcome.reports, outcome.rowId, items, gateway, n, q, tr);
    }
    tr' := Prepend(p.reports, outcome.Skipped?, tr);
  }

  /** Where a loop that failed stood when it did. */
  ghost predicate StoppedAt(p: Progress, items: seq<Item>, gateway: Id, known: bool, fault: Option<int>, error: Error,
                            c: int, n: nat, q: Progress, tr: Trace) {
    && n <= |items| && Passed(p, items, gateway, n, q, tr)
    && Stopped(items, gateway, n, q.reports, q.touches, q.counter, known, fault, error, c)
    && (error.SimulatedFault? || Unhindered(n, known, fault, q.touches - p.touches, q.touches))
  }

  /** `n` items went by without failing: the fault was not reached, and nothing was written for an unknown gateway. */
  predicate Unhindered(n: nat, known: bool, fault: Option<int>, writes: int, touches: int) {
    (n > 0 && fault.Some? ==> touches < fault.value) && (writes > 0 ==> known)
  }

  lemma TurnStops(p: Progress, items: seq<Item>, gateway: Id, known: bool, fault: Option<int>)
    returns (n: nat, q: Progress, tr: Trace)
    requires items != [] && ItemTurn(p, items[0], gateway, known, fault).Failed?
    ensures var f := ItemTurn(p, items[0], gateway, known, fault);
            StoppedAt(p, items, gateway, known, fault, f.error, f.counter, n, q, tr)
  {
    ItemExplained(p.reports, p.counter, items[0], gateway);
    var f := ItemTurn(p, items[0], gateway, known, fault);
    n, q, tr := 0, p, Trace([p.reports], [], []);
    PassedNone(p, items, gateway);
    if f.error.SimulatedFault? {
      var p1 := ItemTurn(p, items[0], gateway, known, None).progress;
      PassedNone(p1, items[1..], gateway);
      tr := PassedMore(p, p1, items, gateway, known, None, 0, p1, Trace([p1.reports], [], []));
      n, q := 1, p1;
    }
  }

  lemma TurnUnhindered(p: Progress, p1: Progress, item: Item, gateway: Id, known: bool, fault: Option<int>)
    requires ItemTurn(p, item, gateway, known, fault) == Running(p1)
    ensures Unhindered(1, known, fault, p1.touches - p.touches, p1.touches) && p.touches <= p1.touches
  {
  }

  /** The loop went through all items, or through some of them until something true stopped it. */
  ghost predicate LoopTold(p: Progress, items: seq<Item>, gateway: Id, known: bool, fault: Option<int>, loop: Loop,
                           n: nat, q: Progress, tr: Trace) {
    match loop
    case Running(r) =>
      && n == |items| && q == r && Passed(p, items, gateway, n, q, tr)
      && Unhindered(n, known, fault, q.touches - p.touches, q.touches)
    case Failed(error, c) => StoppedAt(p, items, gateway, known, fault, error, c, n, q, tr)
  }

  lemma NoneWritten(tr: Trace, n: nat)
    requires Sorts(tr, n)
    ensures n == 0 ==> |tr.written| == 0
  {
    assert |tr.written| > 0 ==> tr.written[0] < n;
  }

  lemma StoppedMore(items: seq<Item>, gateway: Id, n: nat, q: Progress, known: bool, fault: Option<int>, error: Error, c: int)
    requires n < |items| && Stopped(items[1..], gateway, n, q.reports, q.touches, q.counter, known, fault, error, c)
    ensures Stopped(items, gateway, n + 1, q.reports, q.touches, q.counter, known, fault, error, c)
  {
    assert n < |items| - 1 ==> items[1..][n] == items[n + 1];
  }

  lemma ToldMore(p: Progress, p1: Progress, items: seq<Item>, gateway: Id, known: bool, fault: Option<int>, loop: Loop,
                 n: nat, q: Progress, tr: Trace) returns (tr': Trace)
    requires items != [] && ItemTurn(p, items[0], gateway, known, fault) == Running(p1)
    requires LoopTold(p1, items[1..], gateway, known, fault, loop, n, q, tr) && n < |items|
    ensures LoopTold(p, items, gateway, known, fault, loop, n + 1, q, tr')
  {
    TurnUnhindered(p, p1, items[0], gateway, known, fault);
    NoneWritten(tr, n);
    tr' := PassedMore(p, p1, items, gateway, known, fault, n, q, tr);
    if loop.Failed? {
      StoppedMore(items, gateway, n, q, known, fault, loop.error, loop.counter);
    }
  }

  lemma {:induction false} LoopExplained(p: Progress, items: seq<Item>, gateway: Id, known: bool, fault: Option<int>)
    returns (n: nat, q: Progress, tr: Trace)
    ensures n <= |items| && LoopTold(p, items, gateway, known, fault, ItemLoop(p, items, gateway, known, fault), n, q, tr)
    decreases |items|
  {
    if items == [] {
      n, q, tr := 0, p, Trace([p.reports], [], []);
      PassedNone(p, items, gateway);
    } else {
      match ItemTurn(p, items[0], gateway, known, fault) {
        case Failed(_, _) => n, q, tr := TurnStops(p, items, gateway, known, fault);
        case Running(p1) =>
          n, q, tr := LoopExplained(p1, items[1..], gateway, known, fault);
          tr := ToldMore(p, p1, items, gateway, known, fault, ItemLoop(p, items, gateway, known, fault), n, q, tr);
          n := n + 1;
      }
    }
  }

  // ---- The batch ----

  /** Where a batch's loop starts. */
  function Fresh(db: Db, counter: int): Progress {
    Progress(db.reports, counter, 0, [], [])
  }

  predicate Known(db: Db, s: Settings, body: Body) {
    s.requireAuth ==> body.gateway in db.gateways
  }

  /** A timestamp of the report lies beyond the latest one allowed. */
  predicate Late(item: Item, latest: Time) {
    item.createdAt > latest || item.updatedAt > latest
  }

  ghost predicate FirstLate(items: seq<Item>, i: nat, latest: Time) {
    i < |items| && Late(items[i], latest) && forall j :: 0 <= j < i ==> !Late(items[j], latest)
  }

  /** Report `x` is the first one beyond the latest timestamp allowed. */
  ghost predicate FirstLateIs(items: seq<Item>, x: Id, latest: Time) {
    exists i: nat :: FirstLate(items, i, latest) && items[i].id == x
  }

  lemma {:induction false} FirstTooFarIff(items: seq<Item>, now: Time, skew: Time, latest: Time, x: Id)
    requires latest == now + skew
    ensures FirstTooFar(items, now, skew) == Some(x) <==> FirstLateIs(items, x, latest)
    ensures FirstTooFar(items, now, skew).None? <==> forall i :: 0 <= i < |items| ==> !Late(items[i], latest)
    decreases |items|
  {
    if items != [] {
      var rest := items[1..];
      FirstTooFarIff(rest, now, skew, latest, x);
      assert forall i :: 0 < i < |items| ==> items[i] == rest[i - 1];
      if Late(items[0], latest) {
        assert FirstLate(items, 0, latest);
      } else {
        LateLater(items, latest, x);
      }
    }
  }

  lemma LateLater(items: seq<Item>, latest: Time, x: Id)
    requires items != [] && !Late(items[0], latest)
    ensures FirstLateIs(items, x, latest) <==> FirstLateIs(items[1..], x, latest)
  {
    var rest := items[1..];
    if i: nat :| FirstLate(items, i, latest) && items[i].id == x {
      assert FirstLate(rest, i - 1, latest) && rest[i - 1].id == x;
    }
    if i: nat :| FirstLate(rest, i, latest) && rest[i].id == x {
      assert forall j :: 0 < j < i + 1 ==> items[j] == rest[j - 1];
      assert FirstLate(items, i + 1, latest) && items[i + 1].id == x;
    }
  }

  lemma LoopErrors(db: Db, counter: int, s: Settings, body: Body, now: Time, fault: Option<int>)
    ensures match MergeBatch(db, counter, s, body, now, fault)
            case Done(_, _, result) => !result.replay
            case Aborted(error, _) => !error.HeaderMismatch? && !error.PayloadTooLarge? && !error.TooFarInFuture?
  {
    var known := body.gateway in SeeGateway(db.gateways, body, now, s.requireAuth);
    var n, q, tr := LoopExplained(Fresh(db, counter), body.reports, body.gateway, known, fault);
  }

  /**
   When a batch is turned away before it is merged, and that this comes before any replay: for headers
   that do not name it, for its size, or for its first report beyond the skew, in that order.
   */
  lemma TurnedAwayIff(db: Db, counter: int, s: Settings, body: Body, headerGateway: Id, headerBatch: Id, now: Time,
                      fault: Option<int>)
    ensures var outcome := ApplyBatch(db, counter, s, body, headerGateway, headerBatch, now, fault);
            var named := body.gateway == headerGateway && body.batch == headerBatch;
            var fits, latest := |body.reports| <= s.maxItems, now + s.maxFutureSkew;
            && (outcome == Aborted(HeaderMismatch, counter) <==> !named)
            && (outcome == Aborted(PayloadTooLarge, counter) <==> named && !fits)
            && (forall x: Id ::
                  outcome == Aborted(TooFarInFuture(x), counter) <==> named && fits && FirstLateIs(body.reports, x, latest))
            && ((outcome.Done? && outcome.result.replay) <==>
                  && named && fits
                  && (forall i :: 0 <= i < |body.reports| ==> !Late(body.reports[i], latest))
                  && (exists l :: l in db.logs && l.gateway == body.gateway && l.batch == body.batch))
            && (outcome.Aborted? ==>
                  match outcome.error
                  case HeaderMismatch | PayloadTooLarge | TooFarInFuture(_) => outcome.counter == counter
                  case _ => true)
  {
    LoopErrors(db, counter, s, body, now, fault);
    var latest := now + s.maxFutureSkew;
    forall x: Id ensures FirstTooFar(body.reports, now, s.maxFutureSkew) == Some(x) <==> FirstLateIs(body.reports, x, latest) {
      FirstTooFarIff(body.reports, now, s.maxFutureSkew, latest, x);
    }
    FirstTooFarIff(body.reports, now, s.maxFutureSkew, latest, 0);
  }

  /** The gateway's own entry after a batch: its name, if it gave one, and the time. Others are untouched. */
  ghost predicate GatewaySeen(gateways: map<Id, Gateway>, gateways': map<Id, Gateway>, body: Body, now: Time) {
    && gateways'.Keys == gateways.Keys + {body.gateway}
    && (forall g :: g in gateways && g != body.gateway ==> gateways'[g] == gateways[g])
    && gateways'[body.gateway].lastSeenAt == now
    && gateways'[body.gateway].name
       == match body.name
          case None => FromId(body.gateway)
          case Some(name) => if |name| > 0 then Given(name) else FromId(body.gateway)
  }

  /** What an accepted batch stored and answered, item by item. */
  ghost predicate Accepts(db: Db, counter: int, body: Body, now: Time, db': Db, c: int, result: MergeResult, tr: Trace) {
    && |db'.logs| == |db.logs| + 1 && db'.logs[..|db.logs|] == db.logs
    && var log := db'.logs[|db.logs|];
       && Explains(tr, body.reports, body.gateway, counter, db.reports, db'.reports, log.audit, result.triageIds)
       && log.gateway == body.gateway && log.batch == body.batch
       && log.recordCount == result.recordCount == |body.reports|
       && log.appliedCount == result.appliedCount == |tr.written|
       && log.status == result.status == "applied"
       && log.seqId == c == counter + |tr.written| + 1
       && GatewaySeen(db.gateways, db'.gateways, body, now)
  }

  ghost predicate AcceptedFor(db: Db, counter: int, s: Settings, body: Body, now: Time, fault: Option<int>, db': Db, c: int,
                              result: MergeResult) {
    && Known(db, s, body)
    && (body.reports != [] && fault.Some? ==> result.appliedCount < fault.value)
    && exists tr :: Accepts(db, counter, body, now, db', c, result, tr)
  }

  ghost predicate AbortedFor(db: Db, counter: int, s: Settings, body: Body, fault: Option<int>, error: Error, c: int) {
    exists n, q, tr ::
      StoppedAt(Fresh(db, counter), body.reports, body.gateway, Known(db, s, body), fault, error, c, n, q, tr)
  }

  /**
   Every merged batch: accepted, it was known, met no fault, and stored one true event for each item it
   skipped and one row for each it wrote; aborted, it got through some items, and then there was a cause.
   */
  lemma BatchExplained(db: Db, counter: int, s: Settings, body: Body, now: Time, fault: Option<int>)
    ensures match MergeBatch(db, counter, s, body, now, fault)
            case Done(db', c, result) => AcceptedFor(db, counter, s, body, now, fault, db', c, result)
            case Aborted(error, c) => AbortedFor(db, counter, s, body, fault, error, c)
  {
    var p, known := Fresh(db, counter), Known(db, s, body);
    assert known <==> body.gateway in SeeGateway(db.gateways, body, now, s.requireAuth);
    var n, q, tr := LoopExplained(p, body.reports, body.gateway, known, fault);
    match ItemLoop(p, body.reports, body.gateway, known, fault) {
      case Failed(error, c) =>
        assert StoppedAt(p, body.reports, body.gateway, known, fault, error, c, n, q, tr);
      case Running(_) =>
        if known {
          AcceptedTrace(db, counter, s, body, now, fault, q, tr);
        } else {
          assert StoppedAt(p, body.reports, body.gateway, known, fault, UnknownGateway, q.counter + 1, n, q, tr);
        }
    }
  }

  /** The same of a batch that was not turned away nor applied before. */
  lemma ApplyExplained(db: Db, counter: int, s: Settings, body: Body, headerGateway: Id, headerBatch: Id, now: Time,
                       fault: Option<int>)
    ensures match ApplyBatch(db, counter, s, body, headerGateway, headerBatch, now, fault)
            case Done(db', c, result) =>
              if result.replay then db' == db && c == counter && result.triageIds == []
              else AcceptedFor(db, counter, s, body, now, fault, db', c, result)
            case Aborted(error, c) =>
              match error
              case HeaderMismatch | PayloadTooLarge | TooFarInFuture(_) => c == counter
              case _ => AbortedFor(db, counter, s, body, fault, error, c)
  {
    TurnedAwayIff(db, counter, s, body, headerGateway, headerBatch, now, fault);
    BatchExplained(db, counter, s, body, now, fault);
    LoopErrors(db, counter, s, body, now, fault);
  }

  lemma AcceptedTrace(db: Db, counter: int, s: Settings, body: Body, now: Time, fault: Option<int>, q: Progress, tr: Trace)
    requires Known(db, s, body) && Passed(Fresh(db, counter), body.reports, body.gateway, |body.reports|, q, tr)
    ensures Accepts(db, counter, body, now,
                    Db(q.reports, db.logs + [LogOf(body, q)], SeeGateway(db.gateways, body, now, s.requireAuth)),
                    q.counter + 1, ResultOf(body, q), tr)
  {
    assert body.reports[..|body.reports|] == body.reports;
    assert q.audit[0..] == q.audit && q.triageIds[0..] == q.triageIds;
  }
}
