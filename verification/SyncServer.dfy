/**
 The server itself: tables, counter and queue that its methods update in place. Each method does what
 its counterpart in the functional model says, so every theorem about runs is about these methods.
 */
module SyncServer {
  import opened Options
  import opened Reports
  import opened MergePolicy
  import opened MergeService
  import opened Ordering
  import opened SyncPull
  import opened Triage
  import opened Worlds
  import opened Analytics
  import opened GrpcIngest
  import opened Explanations

  /** What `_apply_one_report` returns or raises. */
  datatype Applied = Rows(touched: nat, rowId: Option<Id>) | Raised(error: Error)

  datatype Reply = Replied(result: MergeResult) | Rejected(error: Error)

  /** When a push is turned away, for what, and that this leaves everything as it was. */
  ghost predicate TurnedAwayFor(s: Settings, w: World, body: Body, headerGateway: Id, headerBatch: Id, now: Time,
                                r: Reply, w': World) {
    var named := body.gateway == headerGateway && body.batch == headerBatch;
    && (r == Rejected(HeaderMismatch) <==> !named)
    && (r == Rejected(PayloadTooLarge) <==> named && |body.reports| > s.maxItems)
    && (forall x: Id ::
          r == Rejected(TooFarInFuture(x))
          <==> named && |body.reports| <= s.maxItems && FirstLateIs(body.reports, x, now + s.maxFutureSkew))
    && (r.Rejected? ==>
          match r.error
          case HeaderMismatch | PayloadTooLarge | TooFarInFuture(_) => w' == w
          case _ => true)
  }

  /** A push that is not turned away: replayed, merged for true reasons and queued once, or aborted for a true cause. */
  ghost predicate MergedFor(s: Settings, w: World, body: Body, now: Time, fault: Option<int>, r: Reply, w': World) {
    match r
    case Rejected(error) =>
      error.HeaderMismatch? || error.PayloadTooLarge? || error.TooFarInFuture?
      || AbortedFor(w.db, w.counter, s, body, fault, error, w'.counter)
    case Replied(result) =>
      if result.replay then w' == w
      else
        && AcceptedFor(w.db, w.counter, s, body, now, fault, w'.db, w'.counter, result)
        && w'.queue == if s.triageEnabled && |result.triageIds| > 0 then w.queue + [result.triageIds] else w.queue
  }

  function ReplyOf(outcome: BatchOutcome): Reply {
    match outcome
    case Done(_, _, result) => Replied(result)
    case Aborted(error, _) => Rejected(error)
  }

  lemma ReplyIsExplained(s: Settings, w: World, e: Event)
    requires e.Push?
    ensures var r, w' := ReplyOf(OutcomeOf(s, w, e)), Step(s, w, e);
            && TurnedAwayFor(s, w, e.body, e.headerGateway, e.headerBatch, e.now, r, w')
            && MergedFor(s, w, e.body, e.now, e.fault, r, w')
  {
    TurnedAwayIff(w.db, w.counter, s, e.body, e.headerGateway, e.headerBatch, e.now, e.fault);
    ApplyExplained(w.db, w.counter, s, e.body, e.headerGateway, e.headerBatch, e.now, e.fault);
  }

  class Server {
    const settings: Settings
    var reports: Table
    var logs: seq<SyncLog>
    var gateways: map<Id, Gateway>
    var counter: int
    var queue: seq<seq<Id>>

    function Database(): Db
      reads this
    {
      Db(reports, logs, gateways)
    }

    /** The server's part of a world; replicas are with the gateways. */
    function State(): World
      reads this
    {
      World(Database(), counter, queue, map[])
    }

    /** Everything that holds in every reachable world. */
    ghost predicate Valid()
      reads this
    {
      WorldInv(settings, State())
    }

    constructor (settings: Settings)
      ensures this.settings == settings
      ensures Valid() && Database() == EMPTY.db && counter == EMPTY.counter && queue == EMPTY.queue
    {
      this.settings := settings;
      reports, logs, gateways, counter, queue := map[], [], map[], 0, [];
    }

    /** `nextval`: the counter moves on for good. */
    method NextServerSequence() returns (n: int)
      modifies this`counter
      ensures n == counter == old(counter) + 1
    {
      counter := counter + 1;
      n := counter;
    }

    method FetchCanonicalMutable(kind: Kind, key: string) returns (row: Option<Id>)
      ensures row == Canonical(reports, kind, key)
    {
      var found := Select(SegmentRows(reports, kind, key), CanonicalOrder(reports), 1);
      row := if found == [] then None else Some(found[0]);
    }

    /** Merge one item into the table, appending to the audit trail or naming the row it wrote. */
    method ApplyOneReport(item: Item, gateway: Id, trail: seq<Audit>) returns (r: Applied, audit: seq<Audit>)
      modifies this`reports, this`counter
      ensures match ApplyItem(old(reports), old(counter), item, gateway)
              case Touched(t, c, id) => reports == t && counter == c && r == Rows(1, Some(id)) && audit == trail
              case Skipped(a) =>
                reports == old(reports) && counter == old(counter) && r == Rows(0, None) && audit == trail + [a]
              case Refused(error, c) => counter == c && r == Raised(error)
    {
      audit := trail;
      if item.kind.Sos? {
        if item.id in reports && !reports[item.id].kind.Sos? {
          return Raised(KindConflict(item.id)), audit;
        }
        var existing := if item.id in reports then Some(SnapshotOf(item.id, reports[item.id])) else None;
        if DecideSos(existing).Noop? {
          audit := audit + [Audit(item.id, Sos, item.segmentKey, NoopSosImmutable, None)];
          return Rows(0, None), audit;
        }
        var n := NextServerSequence();
        reports := reports[item.id := SosRow(item, gateway, n)];
        return Rows(1, Some(item.id)), audit;
      }
      var row: Option<Id>;
      if HasKey(item.segmentKey) {
        row := FetchCanonicalMutable(item.kind, item.segmentKey.value);
        CanonicalSpec(reports, item.kind, item.segmentKey.value);
      } else {
        row := if item.id in reports then Some(item.id) else None;
        if row.Some? && reports[row.value].kind != item.kind {
          return Raised(KindConflict(item.id)), audit;
        }
      }
      var snap := if row.None? then None else Some(SnapshotOf(row.value, reports[row.value]));
      var d := DecideRoadLike(item, gateway, snap);
      if d.action.Noop? {
        if snap.Some? && snap.value.isTombstone && !IncomingIsTombstone(item) {
          audit := audit + [Audit(item.id, item.kind, item.segmentKey, NoopTombstoneBlocksResurrection,
                                  Some(snap.value.seqId))];
        } else {
          audit := audit + [Audit(item.id, item.kind, item.segmentKey, NoopLwwLoser, None)];
        }
        return Rows(0, None), audit;
      }
      var n := NextServerSequence();
      if d.action.Insert? && d.rowId in reports {
        return Raised(IdCollision(d.rowId)), audit;
      }
      reports := reports[d.rowId := RowOf(d, gateway, n)];
      return Rows(1, Some(d.rowId)), audit;
    }

    /** The validation loop: the first report too far ahead of the clock fails the batch. */
    method ValidateBatchStrict(items: seq<Item>, now: Time, maxFuture: Time) returns (late: Option<Id>)
      ensures late == FirstTooFar(items, now, maxFuture)
      ensures late.None? <==>
                forall i :: 0 <= i < |items| ==>
                  items[i].createdAt <= now + maxFuture && items[i].updatedAt <= now + maxFuture
      ensures forall x: Id :: late == Some(x) <==> FirstLateIs(items, x, now + maxFuture)
    {
      forall x: Id ensures FirstTooFar(items, now, maxFuture) == Some(x) <==> FirstLateIs(items, x, now + maxFuture) {
        FirstTooFarIff(items, now, maxFuture, now + maxFuture, x);
      }
      for i := 0 to |items|
        invariant FirstTooFar(items[i..], now, maxFuture) == FirstTooFar(items, now, maxFuture)
      {
        if !TimestampsOk(items[i], now, maxFuture) {
          return Some(items[i].id);
        }
        assert items[i..][1..] == items[i + 1..];
      }
      return None;
    }

    /**
     The merge inside the open transaction. When it raises, the tables may be left half written: it is
     the caller's rollback that undoes them.
     */
    method ApplyOpenBatch(body: Body, headerGateway: Id, headerBatch: Id, now: Time, fault: Option<int>)
      returns (r: Reply)
      requires Valid()
      modifies this`reports, this`logs, this`gateways, this`counter
      ensures match ApplyBatch(old(Database()), old(counter), settings, body, headerGateway, headerBatch, now, fault)
              case Done(db, c, result) => Database() == db && counter == c && r == Replied(result)
              case Aborted(error, c) => counter == c && r == Rejected(error)
    {
      if body.gateway != headerGateway || body.batch != headerBatch {
        return Rejected(HeaderMismatch);
      }
      if |body.reports| > settings.maxItems {
        return Rejected(PayloadTooLarge);
      }
      var late := ValidateBatchStrict(body.reports, now, settings.maxFutureSkew);
      if late.Some? {
        return Rejected(TooFarInFuture(late.value));
      }
      var existing := FindLog(logs, body.gateway, body.batch);
      if existing.Some? {
        var log := existing.value;
        return Replied(MergeResult(true, log.recordCount, log.appliedCount, log.status, []));
      }
      gateways := SeeGateway(gateways, body, now, settings.requireAuth);
      var known := body.gateway in gateways;
      var failed, touches, audit, triageIds := MergeItems(body.reports, body.gateway, known, fault);
      if failed.Some? {
        return Rejected(failed.value);
      }
      var n := NextServerSequence();
      if !known {
        return Rejected(UnknownGateway);
      }
      logs := logs + [SyncLog(body.gateway, body.batch, |body.reports|, touches, APPLIED, n, audit)];
      return Replied(MergeResult(false, |body.reports|, touches, APPLIED, triageIds));
    }

    /** The item loop: apply, flush, count, and stop at the first error. */
    method MergeItems(items: seq<Item>, gateway: Id, known: bool, fault: Option<int>)
      returns (failed: Option<Error>, touches: int, audit: seq<Audit>, triageIds: seq<Id>)
      modifies this`reports, this`counter
      ensures match ItemLoop(Progress(old(reports), old(counter), 0, [], []), items, gateway, known, fault)
              case Running(p) => failed == None && p == Progress(reports, counter, touches, audit, triageIds)
              case Failed(error, c) => failed == Some(error) && counter == c
    {
      failed, touches, audit, triageIds := None, 0, [], [];
      ghost var start := Progress(reports, counter, 0, [], []);
      for i := 0 to |items|
        invariant ItemLoop(Progress(reports, counter, touches, audit, triageIds), items[i..], gateway, known, fault)
                  == ItemLoop(start, items, gateway, known, fault)
      {
        assert items[i..][1..] == items[i + 1..];
        var applied;
        applied, audit := ApplyOneReport(items[i], gateway, audit);
        if applied.Raised? {
          failed := Some(applied.error);
          return;
        }
        touches := touches + applied.touched;
        if applied.rowId.Some? {
          triageIds := triageIds + [applied.rowId.value];
          if !known {
            failed := Some(UnknownGateway);
            return;
          }
        }
        if fault.Some? && touches >= fault.value {
          failed := Some(SimulatedFault);
          return;
        }
      }
      assert items[|items|..] == [];
    }

    method MaybeEnqueueTriage(ids: seq<Id>)
      modifies this`queue
      ensures queue == Enqueue(old(queue), ids, settings.triageEnabled)
      ensures queue == if settings.triageEnabled && |ids| > 0 then old(queue) + [ids] else old(queue)
    {
      if ids == [] {
        return;
      }
      if !settings.triageEnabled {
        return;
      }
      queue := queue + [ids];
    }

    /**
     The push route: one transaction around the merge, rolled back on any error, and the triage task
     enqueued after the commit. A failed push leaves tables and queue exactly as they were.
     */
    method SyncPush(body: Body, headerGateway: Id, headerBatch: Id, now: Time, fault: Option<int>) returns (r: Reply)
      requires Valid()
      modifies this
      ensures Valid()
      ensures var e := Push(body, headerGateway, headerBatch, now, fault);
              && State() == Step(settings, old(State()), e)
              && r == ReplyOf(OutcomeOf(settings, old(State()), e))
      ensures r.Rejected? ==>
                Database() == old(Database()) && queue == old(queue) && old(counter) <= counter
      ensures TurnedAwayFor(settings, old(State()), body, headerGateway, headerBatch, now, r, State())
      ensures MergedFor(settings, old(State()), body, now, fault, r, State())
    {
      ghost var e := Push(body, headerGateway, headerBatch, now, fault);
      ghost var before := State();
      BatchKeepsInv(Database(), counter, settings, body, headerGateway, headerBatch, now, fault);
      StepKeepsInv(settings, before, e);
      ReplyIsExplained(settings, before, e);
      var savedReports, savedLogs, savedGateways := reports, logs, gateways;
      r := ApplyOpenBatch(body, headerGateway, headerBatch, now, fault);
      if r.Rejected? {
        reports, logs, gateways := savedReports, savedLogs, savedGateways;
        return;
      }
      MaybeEnqueueTriage(r.result.triageIds);
    }

    /** The gRPC route: the decoded batch goes through the same transaction, with its own ids for headers. */
    method PushBatch(pb: WireBatch, now: Time, fault: Option<int>) returns (r: Reply)
      requires Valid()
      modifies this
      ensures Valid()
      ensures var e := Push(Decode(pb), pb.gateway, pb.batch, now, fault);
              && State() == Step(settings, old(State()), e)
              && r == ReplyOf(OutcomeOf(settings, old(State()), e))
    {
      var body := PbToRequest(pb);
      r := SyncPush(body, body.gateway, body.batch, now, fault);
    }

    /** The pull route: bounds on cursor and page size, then one page. */
    method SyncPull(since: int, limit: int) returns (page: Option<Page>)
      ensures page.Some? <==> 0 <= since && 1 <= limit <= 500
      ensures page.Some? ==> page.value == PullPage(reports, since, limit)
    {
      if since < 0 || !LimitOk(limit) {
        return None;
      }
      var p := BuildSyncPullResponse(since, limit);
      return Some(p);
    }

    method BuildSyncPullResponse(since: int, limit: nat) returns (page: Page)
      ensures page == PullPage(reports, since, limit)
    {
      var rows := Select(Above(reports, since), SeqOrder(reports), limit + 1);
      assert rows == Take(AscendingAfter(reports, since), limit + 1);
      SelectedPage(reports, since, limit, rows);
      var hasMore := |rows| > limit;
      var shown := if hasMore then rows[..limit] else rows;
      var items, maxSeqId := RenderPage(shown, since);
      page := Page(items, maxSeqId, hasMore);
    }

    /** The page loop: raise the cursor to the highest number seen and append the row. */
    method RenderPage(ids: seq<Id>, since: int) returns (items: seq<PullItem>, maxSeqId: int)
      requires forall id :: id in ids ==> id in reports
      ensures items == ItemsOf(reports, ids)
      ensures maxSeqId == MaxSeqId(items, since)
    {
      items, maxSeqId := [], since;
      for i := 0 to |ids|
        invariant |items| == i && forall j :: 0 <= j < i ==> items[j] == ToPullItem(ids[j], reports[ids[j]])
        invariant maxSeqId == MaxSeqId(items, since)
      {
        var item := ToPullItem(ids[i], reports[ids[i]]);
        assert (items + [item])[..i] == items;
        maxSeqId := if maxSeqId >= item.seqId then maxSeqId else item.seqId;
        items := items + [item];
      }
    }

    /** A triage task: every existing row it names gets its score and is marked completed. */
    method RunTriageBatch(ids: seq<Id>)
      modifies this`reports
      ensures reports == RunTriage(old(reports), ids)
      ensures reports.Keys == old(reports).Keys
      ensures forall id :: id in reports ==>
                reports[id] == if id in ids then Scored(old(reports)[id]) else old(reports)[id]
    {
      RunTriageSpec(reports, ids);
      for i := 0 to |ids|
        invariant RunTriage(reports, ids[i..]) == RunTriage(old(reports), ids)
      {
        if ids[i] in reports {
          var row := reports[ids[i]];
          var score := PriorityScore(row.kind, row.status, row.payload);
          reports := reports[ids[i] := row.(score := Some(score), triage := Completed)];
        }
        assert ids[i..][1..] == ids[i + 1..];
      }
      assert ids[|ids|..] == [];
    }

    /** A worker takes one queued task and runs it. */
    method RunQueuedTask(k: nat)
      requires Valid() && k < |queue|
      modifies this`reports, this`queue
      ensures Valid()
      ensures State() == Step(settings, old(State()), RunTask(k))
    {
      StepKeepsInv(settings, State(), RunTask(k));
      var ids := queue[k];
      queue := RemoveTask(queue, k);
      RunTriageBatch(ids);
    }

    /** The queue's rows in order, each with the fields the dashboard shows. */
    method BuildSosQueue(limit: nat) returns (out: seq<SosEntry>)
      requires Valid()
      ensures Listed(reports, SosQueue(reports, limit), out)
      ensures QueueInOrder(reports, out) && QueueComplete(reports, limit, out) && ByScore(out)
    {
      var rows := Select(SosRows(reports), SosOrder(reports), limit);
      assert rows == SosQueue(reports, limit);
      SosQueueRows(reports, limit);
      out := RenderQueue(rows);
      QueueReads(reports, counter, limit, out);
      QueueByScore(reports, limit, out);
    }

    method RenderQueue(ids: seq<Id>) returns (out: seq<SosEntry>)
      requires forall i :: 0 <= i < |ids| ==> ids[i] in reports
      ensures Listed(reports, ids, out)
    {
      out := [];
      for i := 0 to |ids|
        invariant |out| == i
        invariant forall j :: 0 <= j < i ==> out[j] == EntryOf(ids[j], reports[ids[j]])
      {
        out := out + [EntryOf(ids[i], reports[ids[i]])];
      }
    }
  }
}
