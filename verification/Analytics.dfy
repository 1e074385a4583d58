/** The dashboard's SOS queue: live SOS rows by cached score, then by number, both descending. */
module Analytics {
  import opened Options
  import opened Reports
  import opened Ordering
  import opened MergeService
  import opened Triage
  import opened Worlds

  /** Descending score with missing scores last. */
  predicate ScoreAhead(a: Option<real>, b: Option<real>) {
    a.Some? && (b.None? || a.value > b.value)
  }

  predicate NewerSeq(t: Table, a: Id, b: Id) {
    a in t && b in t && (t[a].seqId > t[b].seqId || (t[a].seqId == t[b].seqId && a < b))
  }

  predicate SosAhead(t: Table, a: Id, b: Id) {
    a in t && b in t && (ScoreAhead(t[a].score, t[b].score) || (t[a].score == t[b].score && NewerSeq(t, a, b)))
  }

  function SosOrder(t: Table): (Id, Id) -> bool {
    (a: Id, b: Id) => SosAhead(t, a, b)
  }

  function NewestOrder(t: Table): (Id, Id) -> bool {
    (a: Id, b: Id) => NewerSeq(t, a, b)
  }

  function SosRows(t: Table): set<Id> {
    set id | id in t && t[id].kind.Sos? && !t[id].isTombstone
  }

  function SosIn(t: Table, status: TriageStatus): set<Id> {
    set id | id in t && t[id].kind.Sos? && t[id].triage == status
  }

  ghost function SosRanking(t: Table): seq<Id> {
    OrderBy(SosRows(t), SosOrder(t))
  }

  ghost function SosQueue(t: Table, limit: nat): seq<Id> {
    Take(SosRanking(t), limit)
  }

  ghost function NewestFirst(t: Table, s: set<Id>): seq<Id>
    requires s <= t.Keys
  {
    OrderBy(s, NewestOrder(t))
  }

  /** What the dashboard shows of a row. */
  datatype SosEntry = SosEntry(id: Id, status: string, payload: Payload, createdAt: Time, updatedAt: Time,
                               score: Option<real>, triage: TriageStatus, seqId: int)

  function EntryOf(id: Id, r: Row): SosEntry {
    SosEntry(id, r.status, r.payload, r.createdAt, r.updatedAt, r.score, r.triage, r.seqId)
  }

  /** The entries are those of the listed rows, one for one. */
  ghost predicate Listed(t: Table, ids: seq<Id>, out: seq<SosEntry>) {
    |out| == |ids| && forall i :: 0 <= i < |ids| ==> ids[i] in t && out[i] == EntryOf(ids[i], t[ids[i]])
  }

  lemma SosQueueRows(t: Table, limit: nat)
    ensures forall i :: 0 <= i < |SosQueue(t, limit)| ==> SosQueue(t, limit)[i] in t
  {
    SosRankingLists(t);
    var queue := SosQueue(t, limit);
    assert forall i :: 0 <= i < |queue| ==> queue[i] == SosRanking(t)[i] && queue[i] in SosRows(t);
  }

  /** Scored SOS rows all score the same and come before unscored ones. */
  lemma SosScores(t: Table, x: Id, y: Id)
    requires Coherent(t) && x in SosIn(t, Completed)
    ensures t[x].score == Some(100.0)
    ensures y in SosIn(t, Completed) ==> SosAhead(t, x, y) == NewerSeq(t, x, y)
    ensures y in SosIn(t, Pending) ==> SosAhead(t, x, y)
  {
    assert CoherentRow(t[x]);
    assert y in t ==> CoherentRow(t[y]);
  }

  lemma ScoredThenWaiting(t: Table)
    requires Coherent(t)
    ensures var done, waiting := SosIn(t, Completed), SosIn(t, Pending);
            Lists(NewestFirst(t, done) + NewestFirst(t, waiting), done + waiting, SosOrder(t))
  {
    var done, waiting := SosIn(t, Completed), SosIn(t, Pending);
    forall x, y | x in done && y in waiting ensures SosOrder(t)(x, y) {
      SosScores(t, x, y);
    }
    ScoredByNumber(t);
    WaitingByNumber(t);
    ConcatLists(NewestFirst(t, done), NewestFirst(t, waiting), done, waiting, SosOrder(t));
  }

  lemma ScoredByNumber(t: Table)
    requires Coherent(t)
    ensures Lists(NewestFirst(t, SosIn(t, Completed)), SosIn(t, Completed), SosOrder(t))
  {
    var done := SosIn(t, Completed);
    forall x, y | x in done && y in done && NewestOrder(t)(x, y) ensures SosOrder(t)(x, y) {
      SosScores(t, x, y);
    }
    OrderByLists(done, NewestOrder(t));
    SameOrderLists(NewestFirst(t, done), done, NewestOrder(t), SosOrder(t));
  }

  lemma WaitingByNumber(t: Table)
    requires Coherent(t)
    ensures Lists(NewestFirst(t, SosIn(t, Pending)), SosIn(t, Pending), SosOrder(t))
  {
    var waiting := SosIn(t, Pending);
    forall x | x in waiting ensures t[x].score == None {
      assert CoherentRow(t[x]);
    }
    OrderByLists(waiting, NewestOrder(t));
    SameOrderLists(NewestFirst(t, waiting), waiting, NewestOrder(t), SosOrder(t));
  }

  lemma SosRowsSplit(t: Table)
    requires TombstonesMarked(t)
    ensures SosRows(t) == SosIn(t, Completed) + SosIn(t, Pending)
  {
  }

  lemma SosRankingLists(t: Table)
    ensures StrictTotal(SosRows(t), SosOrder(t))
    ensures Lists(SosRanking(t), SosRows(t), SosOrder(t))
  {
    OrderByLists(SosRows(t), SosOrder(t));
  }

  /**
   Where every cached score is right, all scored SOS rows score 100 whatever they carry, so the queue
   lists the scored rows newest first and then the unscored ones newest first.
   */
  lemma SosRankingSplits(t: Table)
    requires Coherent(t) && TombstonesMarked(t)
    ensures SosRanking(t) == NewestFirst(t, SosIn(t, Completed)) + NewestFirst(t, SosIn(t, Pending))
  {
    var done, waiting := SosIn(t, Completed), SosIn(t, Pending);
    SosRowsSplit(t);
    ScoredThenWaiting(t);
    SosRankingLists(t);
    SortedUnique(SosRanking(t), NewestFirst(t, done) + NewestFirst(t, waiting), SosRows(t), SosOrder(t));
  }

  /** Every reachable state shows the SOS queue in that order, cut to the limit. */
  lemma SosQueueOrder(s: Settings, events: seq<Event>, limit: nat)
    ensures var t := Run(s, EMPTY, events).db.reports;
            SosQueue(t, limit) == Take(NewestFirst(t, SosIn(t, Completed)) + NewestFirst(t, SosIn(t, Pending)), limit)
  {
    Reachable(s, events);
    SosRankingSplits(Run(s, EMPTY, events).db.reports);
  }

  /** Draining the triage queue in any reachable state makes the SOS queue purely newest first. */
  lemma DrainedSosQueue(s: Settings, events: seq<Event>, limit: nat)
    requires s.triageEnabled
    ensures var w := Run(s, EMPTY, events);
            var t := Drain(w.db.reports, w.queue);
            && (forall id :: id in t ==> t[id].triage.Completed?)
            && SosQueue(t, limit) == Take(NewestFirst(t, SosRows(t)), limit)
  {
    Reachable(s, events);
    var w := Run(s, EMPTY, events);
    var t := Drain(w.db.reports, w.queue);
    DrainCompletes(w.db.reports, w.queue);
    ScoredTable(w.db.reports, t);
    SosRankingSplits(t);
    assert NewestFirst(t, {}) == [];
    assert NewestFirst(t, SosRows(t)) + [] == NewestFirst(t, SosRows(t));
  }

  lemma ScoredTable(t: Table, t': Table)
    requires TombstonesMarked(t) && t'.Keys == t.Keys && forall id :: id in t ==> t'[id] == Scored(t[id])
    ensures Coherent(t') && TombstonesMarked(t') && forall id :: id in t' ==> t'[id].triage.Completed?
    ensures SosIn(t', Pending) == {} && SosIn(t', Completed) == SosRows(t')
  {
  }

  // ---- What the dashboard reads ----

  /** The entry shows this row, column by column. */
  predicate ShowsRow(e: SosEntry, id: Id, r: Row) {
    && e.id == id && e.status == r.status && e.payload == r.payload && e.createdAt == r.createdAt
    && e.updatedAt == r.updatedAt && e.score == r.score && e.triage == r.triage && e.seqId == r.seqId
  }

  /** A row with this state and number may stand before a row with that one: scored first, then newest first. */
  predicate Precedes(triage: TriageStatus, seqId: int, triage': TriageStatus, seqId': int) {
    (triage.Completed? || triage'.Pending?) && (triage == triage' ==> seqId > seqId')
  }

  /** The answer shows SOS rows, each once, scored rows before waiting ones and each group newest first. */
  ghost predicate QueueInOrder(t: Table, out: seq<SosEntry>) {
    && (forall i :: 0 <= i < |out| ==>
          var e := out[i];
          e.id in t && t[e.id].kind.Sos? && ShowsRow(e, e.id, t[e.id])
          && e.score == if e.triage.Completed? then Some(100.0) else None)
    && (forall i, j :: 0 <= i < j < |out| ==>
          out[i].id != out[j].id && Precedes(out[i].triage, out[i].seqId, out[j].triage, out[j].seqId))
  }

  /** On any table at all, by cached score with missing ones last, and by number where scores are equal. */
  ghost predicate ByScore(out: seq<SosEntry>) {
    forall i, j :: 0 <= i < j < |out| ==>
      match out[j].score
      case Some(low) =>
        && out[i].score.Some? && out[i].score.value >= low
        && (out[i].score.value == low ==> out[i].seqId > out[j].seqId)
      case None => out[i].score.None? ==> out[i].seqId > out[j].seqId
  }

  /** Nothing is missing but what the limit cuts off, and that comes after all that is shown. */
  ghost predicate QueueComplete(t: Table, limit: nat, out: seq<SosEntry>) {
    && |out| <= limit
    && forall id :: id in t && t[id].kind.Sos? && (forall i :: 0 <= i < |out| ==> out[i].id != id) ==>
         |out| == limit
         && forall i :: 0 <= i < |out| ==> Precedes(out[i].triage, out[i].seqId, t[id].triage, t[id].seqId)
  }

  lemma AheadMeans(t: Table, x: Id, y: Id)
    requires Coherent(t) && DistinctSeqs(t) && x in t && y in t && t[x].kind.Sos? && t[y].kind.Sos?
    requires SosAhead(t, x, y)
    ensures x != y && Precedes(t[x].triage, t[x].seqId, t[y].triage, t[y].seqId)
  {
    assert CoherentRow(t[x]) && CoherentRow(t[y]);
  }

  lemma ListedInOrder(t: Table, all: seq<Id>, limit: nat, out: seq<SosEntry>)
    requires Coherent(t) && DistinctSeqs(t) && Lists(all, SosRows(t), SosOrder(t)) && Listed(t, Take(all, limit), out)
    ensures QueueInOrder(t, out)
  {
    var ids := Take(all, limit);
    forall i | 0 <= i < |out|
      ensures var e := out[i];
              e.id in t && t[e.id].kind.Sos? && ShowsRow(e, e.id, t[e.id])
              && e.score == if e.triage.Completed? then Some(100.0) else None
    {
      assert ids[i] == all[i] && all[i] in all;
      assert CoherentRow(t[all[i]]);
    }
    forall i, j | 0 <= i < j < |out|
      ensures out[i].id != out[j].id && Precedes(out[i].triage, out[i].seqId, out[j].triage, out[j].seqId)
    {
      assert ids[i] == all[i] && ids[j] == all[j] && all[i] in all && all[j] in all;
      assert SosOrder(t)(all[i], all[j]);
      AheadMeans(t, all[i], all[j]);
    }
  }

  lemma ListedComplete(t: Table, all: seq<Id>, limit: nat, out: seq<SosEntry>)
    requires Coherent(t) && DistinctSeqs(t) && TombstonesMarked(t)
    requires Lists(all, SosRows(t), SosOrder(t)) && Listed(t, Take(all, limit), out)
    ensures QueueComplete(t, limit, out)
  {
    var ids := Take(all, limit);
    forall id | id in t && t[id].kind.Sos? && (forall i :: 0 <= i < |out| ==> out[i].id != id)
      ensures |out| == limit
      ensures forall i :: 0 <= i < |out| ==> Precedes(out[i].triage, out[i].seqId, t[id].triage, t[id].seqId)
    {
      assert id in SosRows(t);
      var k :| 0 <= k < |all| && all[k] == id;
      assert k < |ids| ==> ids[k] == id && out[k].id == id;
      forall i | 0 <= i < |out| ensures Precedes(out[i].triage, out[i].seqId, t[id].triage, t[id].seqId) {
        assert ids[i] == all[i] && all[i] in all && SosOrder(t)(all[i], all[k]);
        AheadMeans(t, all[i], id);
      }
    }
  }

  lemma QueueByScore(t: Table, limit: nat, out: seq<SosEntry>)
    requires DistinctSeqs(t) && Listed(t, SosQueue(t, limit), out)
    ensures ByScore(out)
  {
    SosRankingLists(t);
    ListedByScore(t, SosRanking(t), limit, out);
  }

  lemma ListedByScore(t: Table, all: seq<Id>, limit: nat, out: seq<SosEntry>)
    requires DistinctSeqs(t) && Lists(all, SosRows(t), SosOrder(t)) && Listed(t, Take(all, limit), out)
    ensures ByScore(out)
  {
    var ids := Take(all, limit);
    forall i, j | 0 <= i < j < |out| ensures SosAhead(t, out[i].id, out[j].id) {
      assert ids[i] == all[i] && ids[j] == all[j] && all[i] in all && all[j] in all;
      assert SosOrder(t)(all[i], all[j]);
    }
  }

  /** Wherever scores are coherent, the queue reads as it should. */
  lemma QueueReads(t: Table, counter: int, limit: nat, out: seq<SosEntry>)
    requires TableInv(t, counter) && Coherent(t) && Listed(t, SosQueue(t, limit), out)
    ensures QueueInOrder(t, out) && QueueComplete(t, limit, out)
  {
    SosRankingLists(t);
    ListedInOrder(t, SosRanking(t), limit, out);
    ListedComplete(t, SosRanking(t), limit, out);
  }

  lemma ScoredQueueReads(t: Table, out: seq<SosEntry>)
    requires QueueInOrder(t, out) && forall id :: id in t ==> t[id].triage.Completed?
    ensures forall i :: 0 <= i < |out| ==> out[i].score == Some(100.0)
    ensures forall i, j :: 0 <= i < j < |out| ==> out[i].seqId > out[j].seqId
  {
    assert forall i :: 0 <= i < |out| ==> out[i].triage == t[out[i].id].triage;
  }

  /** The world after the workers have taken every task. */
  ghost function Drained(s: Settings, events: seq<Event>): World {
    var w := Run(s, EMPTY, events);
    Run(s, w, Workers(|w.queue|))
  }

  lemma DrainedState(s: Settings, events: seq<Event>)
    requires s.triageEnabled
    ensures var w := Drained(s, events);
            TableInv(w.db.reports, w.counter) && Coherent(w.db.reports)
            && forall id :: id in w.db.reports ==> w.db.reports[id].triage.Completed?
  {
    var w := Run(s, EMPTY, events);
    TriageCoherence(s, events);
    Reachable(s, events);
    RunKeepsInv(s, w, Workers(|w.queue|));
  }

  /** After a drain in any run, numbers strictly descend, and only smaller ones are cut off. */
  lemma DrainedQueueReads(s: Settings, events: seq<Event>, limit: nat, out: seq<SosEntry>)
    requires s.triageEnabled
    requires var t := Drained(s, events).db.reports; Listed(t, SosQueue(t, limit), out)
    ensures var t := Drained(s, events).db.reports;
            && QueueInOrder(t, out) && QueueComplete(t, limit, out)
            && (forall i :: 0 <= i < |out| ==> out[i].score == Some(100.0))
            && (forall i, j :: 0 <= i < j < |out| ==> out[i].seqId > out[j].seqId)
  {
    var w := Drained(s, events);
    DrainedState(s, events);
    QueueReads(w.db.reports, w.counter, limit, out);
    ScoredQueueReads(w.db.reports, out);
  }
}
