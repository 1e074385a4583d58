/** The stored rows and the request items of the sync server, and the orders they are compared by. */
module Reports {
  import opened Options

  /** A UUID. Its canonical text has a fixed width, so text order is the order of the number it spells. */
  type Id = nat

  /** An instant, counted from a fixed origin. */
  type Time = int

  datatype Kind = Road | Sos | Supply

  /** A JSON object: opaque, except for the three tests the priority score makes on it. */
  datatype Payload = Payload(body: string, priorityHigh: bool, casualties: bool, injured: bool)

  datatype Item = Item(
    id: Id,
    kind: Kind,
    segmentKey: Option<string>,
    status: string,
    payload: Payload,
    createdAt: Time,
    updatedAt: Time,
    deletedAt: Option<Time>,
    isTombstone: Option<bool>)

  datatype TriageStatus = Pending | Completed

  datatype Row = Row(
    kind: Kind,
    segmentKey: Option<string>,
    status: string,
    payload: Payload,
    createdAt: Time,
    updatedAt: Time,
    gateway: Option<Id>,
    deletedAt: Option<Time>,
    seqId: int,
    isTombstone: bool,
    triage: TriageStatus,
    score: Option<real>)

  /** The `reports` table, by primary key. */
  type Table = map<Id, Row>

  /** A segment key counts only when it is a non-empty string. */
  predicate HasKey(key: Option<string>) {
    key.Some? && key.value != ""
  }

  /** A missing gateway compares as the empty string, below every identifier. */
  function GatewayRank(gateway: Option<Id>): int {
    if gateway.None? then -1 else gateway.value
  }

  datatype Stamp = Stamp(at: Time, gateway: int)

  predicate StampLess(a: Stamp, b: Stamp) {
    a.at < b.at || (a.at == b.at && a.gateway < b.gateway)
  }

  function RowStamp(r: Row): Stamp {
    Stamp(r.updatedAt, GatewayRank(r.gateway))
  }

  /** The columns a push writes, without the two that triage owns. */
  function Pushed(r: Row): Row {
    r.(triage := Pending, score := None)
  }

  /** What a push decided about a row: its pushed columns without the number it was given. */
  function Content(r: Row): Row {
    r.(seqId := 0, triage := Pending, score := None)
  }

  // ---- What the tables of a reachable server satisfy ----

  ghost predicate DistinctSeqs(t: Table) {
    forall a, b :: a in t && b in t && a != b ==> t[a].seqId != t[b].seqId
  }

  ghost predicate SeqsWithin(t: Table, counter: int) {
    forall id :: id in t ==> 0 < t[id].seqId <= counter
  }

  ghost predicate InSegment(t: Table, kind: Kind, key: string, id: Id) {
    id in t && t[id].kind == kind && t[id].segmentKey == Some(key)
  }

  /** At most one road or supply row holds a given non-empty segment key. */
  ghost predicate UniqueSegments(t: Table) {
    forall a, b ::
      a in t && b in t && !t[a].kind.Sos? && t[a].kind == t[b].kind
      && HasKey(t[a].segmentKey) && t[a].segmentKey == t[b].segmentKey
      ==> a == b
  }

  /** A row is a tombstone exactly when it carries a deletion time, and SOS rows never are. */
  ghost predicate TombstonesMarked(t: Table) {
    forall id :: id in t ==>
      && (t[id].isTombstone <==> t[id].deletedAt.Some?)
      && (t[id].kind.Sos? ==> !t[id].isTombstone)
  }

  ghost predicate TableInv(t: Table, counter: int) {
    && 0 <= counter
    && SeqsWithin(t, counter)
    && DistinctSeqs(t)
    && UniqueSegments(t)
    && TombstonesMarked(t)
  }

  /** What the life of one row may do to it, whatever happens around it. */
  ghost predicate RowEvolves(r: Row, r': Row) {
    && r'.kind == r.kind
    && !StampLess(RowStamp(r'), RowStamp(r))
    && r.seqId <= r'.seqId
    && (r.seqId == r'.seqId ==> Pushed(r) == Pushed(r'))
    && (r.isTombstone ==> r'.isTombstone)
    && (r.kind.Sos? ==> Pushed(r) == Pushed(r'))
  }

  /**
   `t'` follows from `t` by pushes that rewrote exactly the rows `touched`, each under a number
   handed out between `counter` and `counter'`.
   */
  ghost predicate Advances(t: Table, counter: int, t': Table, counter': int, touched: set<Id>) {
    && counter <= counter'
    && t.Keys <= t'.Keys
    && touched <= t'.Keys
    && (forall id :: id in touched ==> counter < t'[id].seqId <= counter')
    && (forall id :: id in t' && id !in touched ==> id in t && t'[id] == t[id])
    && (forall id :: id in t ==> RowEvolves(t[id], t'[id]))
  }

  lemma AdvancesTrans(t: Table, c: int, t1: Table, c1: int, s1: set<Id>, t2: Table, c2: int, s2: set<Id>)
    requires Advances(t, c, t1, c1, s1) && Advances(t1, c1, t2, c2, s2)
    ensures Advances(t, c, t2, c2, s1 + s2)
  {
    forall id | id in t ensures RowEvolves(t[id], t2[id]) {
      assert RowEvolves(t[id], t1[id]) && RowEvolves(t1[id], t2[id]);
    }
  }

  /** Writing one row under the next number keeps the table invariant and advances the table. */
  lemma PutRow(t: Table, counter: int, id: Id, r: Row)
    requires TableInv(t, counter) && r.seqId == counter + 1
    requires r.isTombstone <==> r.deletedAt.Some?
    requires r.kind.Sos? ==> !r.isTombstone
    requires !r.kind.Sos? && HasKey(r.segmentKey) ==>
               forall a :: a in t && t[a].kind == r.kind && t[a].segmentKey == r.segmentKey ==> a == id
    requires id in t ==> RowEvolves(t[id], r)
    ensures TableInv(t[id := r], counter + 1)
    ensures Advances(t, counter, t[id := r], counter + 1, {id})
  {
    var t' := t[id := r];
    forall a, b | a in t' && b in t' && a != b ensures t'[a].seqId != t'[b].seqId {
      assert a != id ==> t'[a] == t[a];
      assert b != id ==> t'[b] == t[b];
    }
    SegmentsStayUnique(t, id, r);
    forall a | a in t' ensures 0 < t'[a].seqId <= counter + 1 && (a in t ==> RowEvolves(t[a], t'[a])) {
      assert a != id ==> t'[a] == t[a];
    }
  }

  lemma SegmentsStayUnique(t: Table, id: Id, r: Row)
    requires UniqueSegments(t)
    requires !r.kind.Sos? && HasKey(r.segmentKey) ==>
               forall a :: a in t && t[a].kind == r.kind && t[a].segmentKey == r.segmentKey ==> a == id
    ensures UniqueSegments(t[id := r])
  {
  }

  /** A number used for something other than a row leaves the table as it was. */
  lemma SkipNumber(t: Table, counter: int, t': Table, counter': int, touched: set<Id>)
    requires TableInv(t', counter') && Advances(t, counter, t', counter', touched)
    ensures TableInv(t', counter' + 1) && Advances(t, counter, t', counter' + 1, touched)
  {
  }
}
