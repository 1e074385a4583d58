/**
 Runs in which gateways deliver some batches over REST and some over gRPC. Which path each batch takes
 shows in nothing but whether an absent segment key is stored as an empty one.
 */
module GrpcRuns {
  import opened Reports
  import opened Ordering
  import opened MergeService
  import opened SyncPull
  import opened Triage
  import opened Worlds
  import opened GrpcIngest

  // ---- Worlds up to empty segment keys ----

  function NormalItem(i: PullItem): PullItem {
    i.(segmentKey := NormalKey(i.segmentKey))
  }

  ghost predicate SameItems(a: seq<PullItem>, b: seq<PullItem>) {
    |a| == |b| && forall i :: 0 <= i < |a| ==> NormalItem(a[i]) == NormalItem(b[i])
  }

  ghost predicate SameStored(a: map<Id, PullItem>, b: map<Id, PullItem>) {
    a.Keys == b.Keys && forall id :: id in a ==> NormalItem(a[id]) == NormalItem(b[id])
  }

  ghost predicate SameReplica(a: Replica, b: Replica) {
    a.cursor == b.cursor && SameStored(a.rows, b.rows)
  }

  ghost predicate SameReplicas(a: map<Id, Replica>, b: map<Id, Replica>) {
    a.Keys == b.Keys && forall g :: g in a ==> SameReplica(a[g], b[g])
  }

  ghost predicate SameWorlds(v: World, w: World) {
    SameDbs(v.db, w.db) && v.counter == w.counter && v.queue == w.queue && SameReplicas(v.replicas, w.replicas)
  }

  lemma SameAuditsTrans(a: seq<Audit>, b: seq<Audit>, c: seq<Audit>)
    requires SameAudits(a, b) && SameAudits(c, b)
    ensures SameAudits(a, c)
  {
  }

  lemma SameTablesTrans(t: Table, u: Table, v: Table)
    requires SameTables(t, u) && SameTables(v, u)
    ensures SameTables(t, v)
  {
  }

  lemma SameDbsTrans(a: Db, b: Db, c: Db)
    requires SameDbs(a, b) && SameDbs(c, b)
    ensures SameDbs(a, c)
  {
    SameTablesTrans(a.reports, b.reports, c.reports);
    forall i | 0 <= i < |a.logs|
      ensures NormalLog(a.logs[i]) == NormalLog(c.logs[i]) && SameAudits(a.logs[i].audit, c.logs[i].audit)
    {
      SameAuditsTrans(a.logs[i].audit, b.logs[i].audit, c.logs[i].audit);
    }
  }

  lemma SameDbsRefl(a: Db)
    ensures SameDbs(a, a)
  {
  }

  // ---- Pulls ----

  /** Numbers are the same on both sides, so the same rows are listed in the same order. */
  lemma SameAscending(t: Table, u: Table, since: int)
    requires SameTables(t, u)
    ensures AscendingAfter(t, since) == AscendingAfter(u, since)
  {
    assert forall id :: id in t ==> NormalRow(t[id]).seqId == NormalRow(u[id]).seqId;
    assert Above(t, since) == Above(u, since);
    AscendingLists(t, since);
    var all := AscendingAfter(t, since);
    assert forall x, y :: SeqOrder(t)(x, y) == LowerSeq(t, x, y) && SeqOrder(u)(x, y) == LowerSeq(u, x, y);
    SameOrderLists(all, Above(t, since), SeqOrder(t), SeqOrder(u));
    AscendingUnique(u, since, all);
  }

  lemma {:induction false} SameMaxSeqId(a: seq<PullItem>, b: seq<PullItem>, since: int)
    requires SameItems(a, b)
    ensures MaxSeqId(a, since) == MaxSeqId(b, since)
    decreases |a|
  {
    if a != [] {
      SameMaxSeqId(a[..|a| - 1], b[..|b| - 1], since);
      assert NormalItem(a[|a| - 1]) == NormalItem(b[|b| - 1]);
    }
  }

  lemma SamePages(t: Table, u: Table, since: int, limit: nat)
    requires SameTables(t, u)
    ensures var p, q := PullPage(t, since, limit), PullPage(u, since, limit);
            SameItems(p.items, q.items) && p.maxSeqId == q.maxSeqId && p.hasMore == q.hasMore
  {
    SameAscending(t, u, since);
    PageItems(t, since, limit);
    PageItems(u, since, limit);
    var all, p, q := AscendingAfter(t, since), PullPage(t, since, limit), PullPage(u, since, limit);
    forall i | 0 <= i < |p.items| ensures NormalItem(p.items[i]) == NormalItem(q.items[i]) {
      SameShown(t, u, all[i]);
    }
    SameMaxSeqId(p.items, q.items, since);
  }

  lemma SameShown(t: Table, u: Table, id: Id)
    requires SameTables(t, u) && id in t
    ensures id in u && NormalItem(ToPullItem(id, t[id])) == NormalItem(ToPullItem(id, u[id]))
  {
    assert NormalRow(t[id]) == NormalRow(u[id]);
  }

  lemma {:induction false} SameStore(x: map<Id, PullItem>, y: map<Id, PullItem>, a: seq<PullItem>, b: seq<PullItem>)
    requires SameStored(x, y) && SameItems(a, b)
    ensures SameStored(Store(x, a), Store(y, b))
    decreases |a|
  {
    if a != [] {
      SameStore(x, y, a[..|a| - 1], b[..|b| - 1]);
      assert NormalItem(a[|a| - 1]) == NormalItem(b[|b| - 1]);
    }
  }

  lemma SameAbsorbed(t: Table, u: Table, x: Replica, y: Replica, limit: nat)
    requires SameTables(t, u) && SameReplica(x, y)
    ensures SameReplica(Absorb(x, PullPage(t, x.cursor, limit)), Absorb(y, PullPage(u, y.cursor, limit)))
  {
    SamePages(t, u, x.cursor, limit);
    SameStore(x.rows, y.rows, PullPage(t, x.cursor, limit).items, PullPage(u, x.cursor, limit).items);
  }

  lemma ReplicaPut(a: map<Id, Replica>, b: map<Id, Replica>, gateway: Id, x: Replica, y: Replica)
    requires SameReplicas(a, b) && SameReplica(x, y)
    ensures SameReplicas(a[gateway := x], b[gateway := y])
  {
  }

  lemma PullSimulated(v: World, w: World, gateway: Id, limit: int)
    requires SameWorlds(v, w)
    ensures SameWorlds(PullStep(v, gateway, limit), PullStep(w, gateway, limit))
  {
    if LimitOk(limit) {
      var x, y := ReplicaOf(v, gateway), ReplicaOf(w, gateway);
      var p, q := PullPage(v.db.reports, x.cursor, limit), PullPage(w.db.reports, y.cursor, limit);
      SameAbsorbed(v.db.reports, w.db.reports, x, y, limit);
      ReplicaPut(v.replicas, w.replicas, gateway, Absorb(x, p), Absorb(y, q));
    }
  }

  // ---- Triage ----

  lemma TaskSimulated(v: World, w: World, k: nat)
    requires SameWorlds(v, w)
    ensures SameWorlds(TaskStep(v, k), TaskStep(w, k))
  {
    if k < |v.queue| {
      SameScored(v.db.reports, w.db.reports, v.queue[k]);
    }
  }

  /** The score does not look at segment keys. */
  lemma SameScored(t: Table, u: Table, ids: seq<Id>)
    requires SameTables(t, u)
    ensures SameTables(RunTriage(t, ids), RunTriage(u, ids))
  {
    RunTriageSpec(t, ids);
    RunTriageSpec(u, ids);
    forall id | id in t ensures NormalRow(RunTriage(t, ids)[id]) == NormalRow(RunTriage(u, ids)[id]) {
      assert NormalRow(t[id]) == NormalRow(u[id]);
    }
  }

  // ---- Pushes ----

  /** The same batch in its wire form, whose own ids stand in for the headers. */
  function OverGrpc(e: Event): Event
    requires e.Push?
  {
    Push(Decode(Encode(e.body)), e.body.gateway, e.body.batch, e.now, e.fault)
  }

  /** A batch that both paths take alike: its headers name it, and no tombstone flag comes without a time. */
  ghost predicate Portable(e: Event) {
    e.Push? ==> e.headerGateway == e.body.gateway && e.headerBatch == e.body.batch && FaithfulBatch(e.body.reports)
  }

  /** The event itself, or the same batch sent over gRPC. */
  predicate Delivers(e: Event, e': Event) {
    e' == e || (e.Push? && e' == OverGrpc(e))
  }

  /** What came of a push: the same answer, and related databases. */
  ghost predicate SameAnswers(s: Settings, v: World, e: Event, w: World, e': Event) {
    e.Push? && e'.Push? ==> SameBatchOutcomes(OutcomeOf(s, v, e), OutcomeOf(s, w, e'))
  }

  lemma OutcomesTrans(a: BatchOutcome, b: BatchOutcome, c: BatchOutcome)
    requires SameBatchOutcomes(a, b) && SameBatchOutcomes(c, b)
    ensures SameBatchOutcomes(a, c)
  {
    if a.Done? {
      SameDbsTrans(a.db, b.db, c.db);
    }
  }

  lemma PushSimulated(s: Settings, v: World, w: World, e: Event, e': Event)
    requires SameWorlds(v, w) && e.Push? && Portable(e) && Delivers(e, e')
    ensures SameAnswers(s, v, e, w, e') && SameWorlds(Step(s, v, e), Step(s, w, e'))
  {
    BatchSimulated(v.db, w.db, v.counter, s, e.body, e.now, e.fault);
    if e' == e {
      SameDbsRefl(w.db);
      BatchSimulated(w.db, w.db, v.counter, s, e.body, e.now, e.fault);
      OutcomesTrans(OutcomeOf(s, v, e), OutcomeOf(s, w, OverGrpc(e)), OutcomeOf(s, w, e));
    }
  }

  lemma StepSimulated(s: Settings, v: World, w: World, e: Event, e': Event)
    requires SameWorlds(v, w) && Portable(e) && Delivers(e, e')
    ensures SameAnswers(s, v, e, w, e') && SameWorlds(Step(s, v, e), Step(s, w, e'))
  {
    match e
    case Push(_, _, _, _, _) => PushSimulated(s, v, w, e, e');
    case Pull(gateway, limit) => PullSimulated(v, w, gateway, limit);
    case RunTask(k) => TaskSimulated(v, w, k);
  }

  // ---- Runs ----

  /** At every step, the two runs answered alike. */
  ghost predicate AnsweredAlike(s: Settings, v: World, events: seq<Event>, w: World, events': seq<Event>)
    requires |events| == |events'|
    decreases |events|
  {
    events == []
    || (&& SameAnswers(s, v, events[0], w, events'[0])
        && AnsweredAlike(s, Step(s, v, events[0]), events[1..], Step(s, w, events'[0]), events'[1..]))
  }

  /**
   Whichever batches of a run are sent over gRPC instead of REST, among pulls and triage tasks: every
   push is answered alike, and tables, logs, counter, queue and replicas end up related.
   */
  lemma {:induction false} RunSimulated(s: Settings, v: World, w: World, events: seq<Event>, events': seq<Event>)
    requires SameWorlds(v, w) && |events| == |events'|
    requires forall i :: 0 <= i < |events| ==> Portable(events[i]) && Delivers(events[i], events'[i])
    ensures AnsweredAlike(s, v, events, w, events')
    ensures SameWorlds(Run(s, v, events), Run(s, w, events'))
    decreases |events|
  {
    if events != [] {
      StepSimulated(s, v, w, events[0], events'[0]);
      RunSimulated(s, Step(s, v, events[0]), Step(s, w, events'[0]), events[1..], events'[1..]);
    }
  }
}
