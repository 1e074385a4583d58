/** Replica agreement and convergence over every interleaving of pushes, pulls and triage tasks. */
module Replicas {
  import opened Options
  import opened Reports
  import opened Ordering
  import opened MergeService
  import opened SyncPull
  import opened Worlds

  /**
   In every run, whatever was pushed, failed, retried or rescored in between, each gateway's replica
   equals the server on every row up to its cursor, and a pull without a next page makes the whole
   replica equal to the whole table.
   */
  lemma ReplicaAgreement(s: Settings, events: seq<Event>, gateway: Id, limit: int)
    ensures var w := Run(s, EMPTY, events);
            var rep := ReplicaOf(w, gateway);
            && Agrees(w.db.reports, rep)
            && (1 <= limit <= 500 && !PullPage(w.db.reports, rep.cursor, limit).hasMore ==>
                  ReplicaOf(Step(s, w, Pull(gateway, limit)), gateway).rows == View(w.db.reports))
  {
    var w := Run(s, EMPTY, events);
    Reachable(s, events);
    ReplicaAgrees(s, w, gateway);
    if 1 <= limit <= 500 {
      PullKeepsAgreement(w.db.reports, ReplicaOf(w, gateway), limit);
    }
  }

  function Pulls(gateway: Id, limit: int, n: nat): seq<Event> {
    seq(n, _ => Pull(gateway, limit))
  }

  /** A page either leaves nothing above the cursor or takes `limit` rows off what is missing. */
  lemma PageProgress(t: Table, since: int, limit: nat)
    requires DistinctSeqs(t) && limit >= 1
    ensures var page := PullPage(t, since, limit);
            if |Above(t, since)| <= limit then !page.hasMore && Above(t, page.maxSeqId) == {}
            else |Above(t, page.maxSeqId)| == |Above(t, since)| - limit
  {
    PageItems(t, since, limit);
    if |Above(t, since)| > limit {
      RestAfterPage(t, since, limit);
    } else {
      PageCovers(t, since, limit);
    }
  }

  /** A pull outside those bounds is refused. */
  lemma OtherLimitsRefused(s: Settings, w: World, gateway: Id, limit: int)
    ensures !(1 <= limit <= 500) ==> Step(s, w, Pull(gateway, limit)) == w
    ensures 1 <= limit <= 500 ==> gateway in Step(s, w, Pull(gateway, limit)).replicas
  {
  }

  /** One pull of a reachable world brings its gateway that much closer. */
  lemma PullProgress(s: Settings, w: World, gateway: Id, limit: int)
    requires WorldInv(s, w) && 1 <= limit <= 500
    ensures var t, w' := w.db.reports, Step(s, w, Pull(gateway, limit));
            var missing, missing' := |Above(t, ReplicaOf(w, gateway).cursor)|, |Above(t, ReplicaOf(w', gateway).cursor)|;
            && w'.db == w.db
            && (if missing <= limit then missing' == 0 && ReplicaOf(w', gateway).rows == View(t)
                else missing' == missing - limit)
  {
    var t, rep := w.db.reports, ReplicaOf(w, gateway);
    ReplicaAgrees(s, w, gateway);
    PullKeepsAgreement(t, rep, limit);
    PageProgress(t, rep.cursor, limit);
    PullMoves(s, w, gateway, limit);
  }

  lemma PullMoves(s: Settings, w: World, gateway: Id, limit: int)
    requires 1 <= limit <= 500
    ensures var rep, w' := ReplicaOf(w, gateway), Step(s, w, Pull(gateway, limit));
            w'.db == w.db && ReplicaOf(w', gateway) == Absorb(rep, PullPage(w.db.reports, rep.cursor, limit))
  {
  }

  /**
   From any reachable world, a gateway that pulls often enough to cover what it misses ends up with
   exactly the server's table, however far behind it was; so all gateways that do converge.
   */
  lemma {:induction false} Convergence(s: Settings, w: World, gateway: Id, limit: int, n: nat)
    requires WorldInv(s, w) && 1 <= limit <= 500
    requires n >= 1 && |Above(w.db.reports, ReplicaOf(w, gateway).cursor)| <= n * limit
    ensures var w' := Run(s, w, Pulls(gateway, limit, n));
            w'.db == w.db && ReplicaOf(w', gateway).rows == View(w.db.reports)
    decreases n
  {
    var pull := Pull(gateway, limit);
    var w1 := Step(s, w, pull);
    PullProgress(s, w, gateway, limit);
    StepKeepsInv(s, w, pull);
    RunPulls(s, w, gateway, limit, n);
    if n > 1 {
      FewerPulls(|Above(w.db.reports, ReplicaOf(w, gateway).cursor)|, n, limit);
      Convergence(s, w1, gateway, limit, n - 1);
    }
  }

  lemma RunPulls(s: Settings, w: World, gateway: Id, limit: int, n: nat)
    requires n >= 1
    ensures Run(s, w, Pulls(gateway, limit, n)) == Run(s, Step(s, w, Pull(gateway, limit)), Pulls(gateway, limit, n - 1))
  {
    assert Pulls(gateway, limit, n)[1..] == Pulls(gateway, limit, n - 1);
  }

  lemma FewerPulls(missing: nat, n: nat, limit: nat)
    requires n > 1 && missing <= n * limit
    ensures 0 <= (n - 1) * limit && missing - limit <= (n - 1) * limit
  {
  }

  /** An item as a pull shows it after it was written to row `id`; an SOS item cannot be a deletion. */
  function ItemShown(item: Item, gateway: Id, id: Id, seqId: int): PullItem {
    var deletedAt := match item.deletedAt
      case Some(at) => Some(at)
      case None => if item.isTombstone == Some(true) then Some(item.updatedAt) else None;
    PullItem(id, item.kind, item.segmentKey, item.status, item.payload, item.createdAt, item.updatedAt,
             if item.kind.Sos? then None else deletedAt, Some(gateway), seqId, !item.kind.Sos? && deletedAt.Some?)
  }

  ghost predicate ShowsSome(shown: PullItem, items: seq<Item>, gateway: Id) {
    exists i :: 0 <= i < |items| && shown == ItemShown(items[i], gateway, shown.id, shown.seqId)
  }

  /**
   What a push reports for triage is what it makes visible: from any reachable world, a complete pull
   from the counter before an accepted batch returns exactly the rows the batch names, each once, and
   each shows word for word one of the batch's items.
   */
  lemma PulledAfterPush(s: Settings, w: World, e: Event, limit: nat)
    requires WorldInv(s, w) && e.Push? && limit >= 1
    requires OutcomeOf(s, w, e).Done? && !OutcomeOf(s, w, e).result.replay
    ensures var t := Step(s, w, e).db.reports;
            && DistinctSeqs(t)
            && var items := PullAll(t, w.counter, limit).items;
               && (forall i, j :: 0 <= i < j < |items| ==> items[i].id != items[j].id)
               && (forall i :: 0 <= i < |items| ==>
                     && items[i].id in OutcomeOf(s, w, e).result.triageIds
                     && ShowsSome(items[i], e.body.reports, e.body.gateway))
               && (forall id :: id in OutcomeOf(s, w, e).result.triageIds ==>
                     id in t && ToPullItem(id, t[id]) in items)
  {
    var t := Step(s, w, e).db.reports;
    var ids := OutcomeOf(s, w, e).result.triageIds;
    StepKeepsInv(s, w, e);
    var items := PullAll(t, w.counter, limit).items;
    BatchAccounting(w.db, w.counter, s, e.body, e.now, e.fault);
    PageSizeIndependence(t, w.counter, limit);
    ShownAll(t, w.counter, AscendingAfter(t, w.counter), items);
    assert forall id :: id in ids <==> id in Above(t, w.counter);
    forall i | 0 <= i < |items| ensures ShowsSome(items[i], e.body.reports, e.body.gateway) {
      WrittenShown(s, w, e, items[i].id);
    }
  }

  lemma WrittenShown(s: Settings, w: World, e: Event, id: Id)
    requires WorldInv(s, w) && e.Push? && OutcomeOf(s, w, e).Done? && !OutcomeOf(s, w, e).result.replay
    requires id in Above(Step(s, w, e).db.reports, w.counter)
    ensures ShowsSome(ToPullItem(id, Step(s, w, e).db.reports[id]), e.body.reports, e.body.gateway)
  {
    BatchWrites(w.db, w.counter, s, e.body, e.now, e.fault);
    var r := Step(s, w, e).db.reports[id];
    var i :| 0 <= i < |e.body.reports| && r == WrittenRow(e.body.reports[i], e.body.gateway, r.seqId);
    assert ToPullItem(id, r) == ItemShown(e.body.reports[i], e.body.gateway, id, r.seqId);
  }

  lemma ShownAll(t: Table, since: int, all: seq<Id>, items: seq<PullItem>)
    requires DistinctSeqs(t) && Lists(all, Above(t, since), SeqOrder(t)) && Shown(t, all, items)
    ensures forall i, j :: 0 <= i < j < |items| ==> items[i].id != items[j].id
    ensures forall i :: 0 <= i < |items| ==>
              items[i].id in Above(t, since) && items[i] == ToPullItem(items[i].id, t[items[i].id])
    ensures forall id :: id in Above(t, since) ==> ToPullItem(id, t[id]) in items
  {
    forall i, j | 0 <= i < j < |items| ensures items[i].id != items[j].id {
      assert SeqOrder(t)(all[i], all[j]);
    }
    forall i | 0 <= i < |items| ensures items[i].id in Above(t, since) && items[i] == ToPullItem(items[i].id, t[items[i].id]) {
      assert all[i] in all;
    }
    forall id | id in Above(t, since) ensures ToPullItem(id, t[id]) in items {
      var i :| 0 <= i < |all| && all[i] == id;
      assert items[i] == ToPullItem(id, t[id]);
    }
  }
}
