/**
 Pulling while batches are still open. Numbers are handed out when a row is written, but rows become
 visible only at commit, so a lower number can appear after a higher one has been pulled. Any rows may
 be written here, and open transactions may even write the same row.
 */
module OpenTransactions {
  import opened Options
  import opened Reports
  import opened MergeService
  import opened Ordering
  import opened SyncPull

  /** `open` holds, for each uncommitted batch, the rows it has written so far. */
  datatype State = State(reports: Table, counter: int, open: map<int, Table>, replicas: map<Id, Replica>)

  datatype Event =
    | Begin(tx: int)
    | Write(tx: int, id: Id, row: Row)
    | Log(tx: int)
    | Commit(tx: int)
    | Rollback(tx: int)
    | Pull(gateway: Id, limit: nat)

  const START := State(map[], 0, map[], map[])

  function ReplicaIn(st: State, gateway: Id): Replica {
    if gateway in st.replicas then st.replicas[gateway] else Replica(map[], 0)
  }

  /** A write and a batch log each take a number, whether or not their batch will commit. */
  ghost function Step(st: State, e: Event): State {
    match e
    case Begin(tx) =>
      if tx in st.open then st else st.(open := st.open[tx := map[]])
    case Write(tx, id, row) =>
      if tx !in st.open then st
      else
        var writes: Table := st.open[tx][id := row.(seqId := st.counter + 1)];
        st.(counter := st.counter + 1, open := st.open[tx := writes])
    case Log(tx) =>
      if tx !in st.open then st else st.(counter := st.counter + 1)
    case Commit(tx) =>
      if tx !in st.open then st
      else st.(reports := st.reports + st.open[tx], open := st.open - {tx})
    case Rollback(tx) =>
      st.(open := st.open - {tx})
    case Pull(gateway, limit) =>
      Received(st, gateway, PullPage(st.reports, ReplicaIn(st, gateway).cursor, limit))
  }

  /** The gateway stores a page it pulled. */
  function Received(st: State, gateway: Id, page: Page): State {
    st.(replicas := st.replicas[gateway := Absorb(ReplicaIn(st, gateway), page)])
  }

  ghost function Run(st: State, events: seq<Event>): State
    decreases |events|
  {
    if events == [] then st else Run(Step(st, events[0]), events[1..])
  }

  /** No number occurs in both tables. */
  ghost predicate Apart(t: Table, u: Table) {
    forall i, j :: i in t && j in u ==> t[i].seqId != u[j].seqId
  }

  ghost predicate BatchNumbered(writes: Table, t: Table, counter: int) {
    SeqsWithin(writes, counter) && DistinctSeqs(writes) && Apart(writes, t)
  }

  /** What numbering alone guarantees: no two rows, committed or open, have the same number. */
  ghost predicate Numbered(st: State) {
    && 0 <= st.counter
    && SeqsWithin(st.reports, st.counter)
    && DistinctSeqs(st.reports)
    && (forall tx :: tx in st.open ==> BatchNumbered(st.open[tx], st.reports, st.counter))
    && (forall a, b :: a in st.open && b in st.open && a != b ==> Apart(st.open[a], st.open[b]))
  }

  ghost predicate NoneStored(rows: map<Id, PullItem>, writes: Table) {
    forall i, j :: i in rows && j in writes ==> rows[i].seqId != writes[j].seqId
  }

  /** Replicas never hold the number of an open row, and never look past the counter. */
  ghost predicate ReplicaNumbered(st: State, rep: Replica) {
    && 0 <= rep.cursor <= st.counter
    && (forall id :: id in rep.rows ==> rep.rows[id].seqId <= rep.cursor)
    && (forall tx :: tx in st.open ==> NoneStored(rep.rows, st.open[tx]))
  }

  ghost predicate BaseInv(st: State) {
    Numbered(st) && forall g :: g in st.replicas ==> ReplicaNumbered(st, st.replicas[g])
  }

  ghost predicate Behind(cursor: int, writes: Table) {
    forall id :: id in writes ==> cursor < writes[id].seqId
  }

  /** No cursor has reached the number of a row that an uncommitted batch has written. */
  ghost predicate CursorsBehind(st: State) {
    forall g, tx :: g in st.replicas && tx in st.open ==> Behind(st.replicas[g].cursor, st.open[tx])
  }

  ghost predicate AllAgree(st: State) {
    forall g :: g in st.replicas ==> Agrees(st.reports, st.replicas[g])
  }

  /** The pull about to be made does not carry its cursor to the number of an open row. */
  ghost predicate SafePull(st: State, e: Event) {
    e.Pull? ==>
      forall tx :: tx in st.open ==>
        Behind(PullPage(st.reports, ReplicaIn(st, e.gateway).cursor, e.limit).maxSeqId, st.open[tx])
  }

  ghost predicate SafeRun(st: State, events: seq<Event>)
    decreases |events|
  {
    events == [] || (SafePull(st, events[0]) && SafeRun(Step(st, events[0]), events[1..]))
  }

  // ---- Numbering is kept by every step, safe or not ----

  lemma CommitNumbered(st: State, tx: int)
    requires Numbered(st) && tx in st.open
    ensures Numbered(Step(st, Commit(tx)))
  {
    var st' := Step(st, Commit(tx));
    PublishedNumbered(st.reports, st.open[tx], st.counter);
    forall other | other in st'.open ensures BatchNumbered(st'.open[other], st'.reports, st.counter) {
      assert BatchNumbered(st.open[other], st.reports, st.counter) && Apart(st.open[other], st.open[tx]);
    }
  }

  lemma PublishedNumbered(t: Table, writes: Table, counter: int)
    requires SeqsWithin(t, counter) && DistinctSeqs(t) && BatchNumbered(writes, t, counter)
    ensures SeqsWithin(t + writes, counter) && DistinctSeqs(t + writes)
  {
  }

  /** A row under the next number is apart from everything numbered so far. */
  lemma NextNumbered(writes: Table, id: Id, row: Row, counter: int, t: Table)
    requires 0 <= counter && SeqsWithin(t, counter) && BatchNumbered(writes, t, counter) && row.seqId == counter + 1
    ensures BatchNumbered(writes[id := row], t, counter + 1)
  {
  }

  lemma NextApart(writes: Table, id: Id, row: Row, counter: int, other: Table)
    requires SeqsWithin(other, counter) && Apart(writes, other) && row.seqId == counter + 1
    ensures Apart(writes[id := row], other) && Apart(other, writes[id := row])
  {
  }

  lemma WriteNumbered(st: State, tx: int, id: Id, row: Row)
    requires Numbered(st) && tx in st.open
    ensures Numbered(Step(st, Write(tx, id, row)))
  {
    var st' := Step(st, Write(tx, id, row));
    forall a | a in st'.open ensures BatchNumbered(st'.open[a], st'.reports, st'.counter) {
      assert BatchNumbered(st.open[a], st.reports, st.counter);
      if a == tx {
        NextNumbered(st.open[tx], id, row.(seqId := st.counter + 1), st.counter, st.reports);
      }
    }
    WriteApart(st, tx, id, row);
  }

  lemma WriteApart(st: State, tx: int, id: Id, row: Row)
    requires Numbered(st) && tx in st.open
    ensures var open := Step(st, Write(tx, id, row)).open;
            forall a, b :: a in open && b in open && a != b ==> Apart(open[a], open[b])
  {
    var open := Step(st, Write(tx, id, row)).open;
    forall a, b | a in open && b in open && a != b ensures Apart(open[a], open[b]) {
      assert Apart(st.open[a], st.open[b]);
      if a == tx || b == tx {
        var other := if a == tx then b else a;
        NextApart(st.open[tx], id, row.(seqId := st.counter + 1), st.counter, st.open[other]);
      }
    }
  }

  lemma StepNumbered(st: State, e: Event)
    requires Numbered(st)
    ensures Numbered(Step(st, e)) && st.counter <= Step(st, e).counter
  {
    match e
    case Begin(_) =>
    case Write(tx, id, row) => if tx in st.open { WriteNumbered(st, tx, id, row); }
    case Log(_) =>
    case Commit(tx) => if tx in st.open { CommitNumbered(st, tx); }
    case Rollback(_) =>
    case Pull(_, _) =>
  }

  /** Steps other than a pull only add numbers above the counter to what is open. */
  lemma ReplicaNumberedStep(st: State, e: Event, rep: Replica)
    requires Numbered(st) && ReplicaNumbered(st, rep) && !e.Pull?
    ensures ReplicaNumbered(Step(st, e), rep)
  {
  }

  lemma PullNumbered(st: State, rep: Replica, limit: nat)
    requires Numbered(st) && ReplicaNumbered(st, rep)
    ensures ReplicaNumbered(st, Absorb(rep, PullPage(st.reports, rep.cursor, limit)))
  {
    var rep' := Absorb(rep, PullPage(st.reports, rep.cursor, limit));
    PageStored(st.reports, rep, limit);
    forall tx | tx in st.open ensures NoneStored(rep'.rows, st.open[tx]) {
      assert BatchNumbered(st.open[tx], st.reports, st.counter) && NoneStored(rep.rows, st.open[tx]);
    }
    CursorWithin(st.reports, rep.cursor, limit, st.counter);
  }

  /** After a page, a replica's numbers are its own old ones or the table's, up to its new cursor. */
  lemma PageStored(t: Table, rep: Replica, limit: nat)
    requires DistinctSeqs(t) && forall id :: id in rep.rows ==> rep.rows[id].seqId <= rep.cursor
    ensures var rep' := Absorb(rep, PullPage(t, rep.cursor, limit));
            forall id :: id in rep'.rows ==>
              && rep'.rows[id].seqId <= rep'.cursor
              && ((id in rep.rows && rep'.rows[id].seqId == rep.rows[id].seqId)
                  || (id in t && rep'.rows[id].seqId == t[id].seqId))
  {
    var page := PullPage(t, rep.cursor, limit);
    var rep' := Absorb(rep, page);
    PageCovers(t, rep.cursor, limit);
    MaxSeqIdIsMax(page.items, rep.cursor);
    forall id | id in rep'.rows
      ensures rep'.rows[id].seqId <= rep'.cursor
      ensures (id in rep.rows && rep'.rows[id].seqId == rep.rows[id].seqId)
              || (id in t && rep'.rows[id].seqId == t[id].seqId)
    {
      StoreShows(t, rep.rows, page.items, id);
    }
  }

  lemma CursorWithin(t: Table, since: int, limit: nat, counter: int)
    requires DistinctSeqs(t) && SeqsWithin(t, counter) && since <= counter
    ensures since <= PullPage(t, since, limit).maxSeqId <= counter
  {
    PageCovers(t, since, limit);
    MaxSeqIdIsMax(PullPage(t, since, limit).items, since);
  }

  lemma StepBase(st: State, e: Event)
    requires BaseInv(st)
    ensures BaseInv(Step(st, e))
  {
    StepNumbered(st, e);
    if e.Pull? {
      PullBase(st, e.gateway, e.limit);
    } else {
      forall g | g in st.replicas ensures ReplicaNumbered(Step(st, e), st.replicas[g]) {
        ReplicaNumberedStep(st, e, st.replicas[g]);
      }
    }
  }

  lemma PullBase(st: State, gateway: Id, limit: nat)
    requires BaseInv(st)
    ensures BaseInv(Step(st, Pull(gateway, limit)))
  {
    var rep := ReplicaIn(st, gateway);
    assert ReplicaNumbered(st, rep);
    PullNumbered(st, rep, limit);
    ReceivedBase(st, gateway, PullPage(st.reports, rep.cursor, limit));
  }

  lemma ReceivedBase(st: State, gateway: Id, page: Page)
    requires BaseInv(st) && ReplicaNumbered(st, Absorb(ReplicaIn(st, gateway), page))
    ensures BaseInv(Received(st, gateway, page))
  {
    forall g | g in Received(st, gateway, page).replicas
      ensures ReplicaNumbered(Received(st, gateway, page), Received(st, gateway, page).replicas[g])
    {
      assert ReplicaNumbered(st, Received(st, gateway, page).replicas[g]);
    }
  }

  // ---- Commits and agreement ----

  /**
   A commit leaves a replica in agreement if and only if every row it publishes is numbered above
   that replica's cursor.
   */
  lemma CommitAgreesIff(st: State, tx: int, rep: Replica)
    requires Numbered(st) && ReplicaNumbered(st, rep) && tx in st.open && Agrees(st.reports, rep)
    ensures Agrees(Step(st, Commit(tx)).reports, rep) <==> Behind(rep.cursor, st.open[tx])
  {
    PublishedAgrees(st.reports, st.open[tx], rep);
  }

  lemma PublishedAgrees(t: Table, writes: Table, rep: Replica)
    requires Agrees(t, rep) && NoneStored(rep.rows, writes)
    ensures Agrees(t + writes, rep) <==> Behind(rep.cursor, writes)
  {
    if Agrees(t + writes, rep) {
      forall id | id in writes ensures rep.cursor < writes[id].seqId {
        assert (t + writes)[id] == writes[id];
        assert id in rep.rows ==> rep.rows[id].seqId != writes[id].seqId;
      }
    }
  }

  /** The gateway has passed the row `id` of the table without receiving it. */
  ghost predicate Lost(st: State, gateway: Id, id: Id) {
    var rep := ReplicaIn(st, gateway);
    && id in st.reports && st.reports[id].seqId <= rep.cursor
    && (id in rep.rows ==> rep.rows[id].seqId != st.reports[id].seqId)
  }

  /** No commit of the run publishes the row anew. */
  ghost predicate NotRepublished(st: State, events: seq<Event>, id: Id)
    decreases |events|
  {
    events == []
    || (&& (events[0].Commit? && events[0].tx in st.open ==> id !in st.open[events[0].tx])
        && NotRepublished(Step(st, events[0]), events[1..], id))
  }

  lemma LostDisagrees(st: State, gateway: Id, id: Id)
    requires Lost(st, gateway, id)
    ensures !Agrees(st.reports, ReplicaIn(st, gateway)) && ReplicaIn(st, gateway).rows != View(st.reports)
  {
    assert View(st.reports)[id] == ToPullItem(id, st.reports[id]);
  }

  /** A pull sends only numbers above the cursor. */
  lemma PullStaysLost(t: Table, rep: Replica, limit: nat, id: Id)
    requires DistinctSeqs(t) && id in t && t[id].seqId <= rep.cursor
    ensures var rep' := Absorb(rep, PullPage(t, rep.cursor, limit));
            && rep.cursor <= rep'.cursor
            && (id in rep'.rows <==> id in rep.rows)
            && (id in rep.rows ==> rep'.rows[id] == rep.rows[id])
  {
    var page := PullPage(t, rep.cursor, limit);
    PageCovers(t, rep.cursor, limit);
    StoreShows(t, rep.rows, page.items, id);
    assert ToPullItem(id, t[id]) !in page.items;
  }

  lemma StepStaysLost(st: State, e: Event, gateway: Id, id: Id)
    requires Numbered(st) && Lost(st, gateway, id) && NotRepublished(st, [e], id)
    ensures Lost(Step(st, e), gateway, id)
  {
    if e.Pull? && e.gateway == gateway {
      PullStaysLost(st.reports, ReplicaIn(st, e.gateway), e.limit, id);
    }
  }

  lemma {:induction false} StaysLost(st: State, events: seq<Event>, gateway: Id, id: Id)
    requires Numbered(st) && Lost(st, gateway, id) && NotRepublished(st, events, id)
    ensures Lost(Run(st, events), gateway, id)
    decreases |events|
  {
    if events != [] {
      StepStaysLost(st, events[0], gateway, id);
      StepNumbered(st, events[0]);
      StaysLost(Step(st, events[0]), events[1..], gateway, id);
    }
  }

  /**
   A row published at or below a cursor is missing from that replica after the commit and after every
   further run, with any pulls of any page size, until some batch publishes the row anew.
   */
  lemma PassedRowLost(st: State, tx: int, id: Id, gateway: Id, events: seq<Event>)
    requires BaseInv(st) && tx in st.open && id in st.open[tx]
    requires st.open[tx][id].seqId <= ReplicaIn(st, gateway).cursor
    requires NotRepublished(Step(st, Commit(tx)), events, id)
    ensures var st' := Run(Step(st, Commit(tx)), events);
            && Lost(st', gateway, id)
            && !Agrees(st'.reports, ReplicaIn(st', gateway))
            && ReplicaIn(st', gateway).rows != View(st'.reports)
  {
    var committed := Step(st, Commit(tx));
    CommitNumbered(st, tx);
    assert ReplicaNumbered(st, ReplicaIn(st, gateway));
    assert committed.reports[id] == st.open[tx][id];
    StaysLost(committed, events, gateway, id);
    LostDisagrees(Run(committed, events), gateway, id);
  }

  // ---- Safe runs ----

  ghost predicate SafeInv(st: State) {
    BaseInv(st) && CursorsBehind(st) && AllAgree(st)
  }

  /** Pulling keeps agreement in any case, and cursors behind open rows exactly if the pull is safe. */
  lemma PullEffect(st: State, gateway: Id, limit: nat)
    requires SeqsWithin(st.reports, st.counter) && DistinctSeqs(st.reports) && AllAgree(st)
    ensures AllAgree(Step(st, Pull(gateway, limit)))
    ensures CursorsBehind(st) ==> (CursorsBehind(Step(st, Pull(gateway, limit))) <==> SafePull(st, Pull(gateway, limit)))
  {
    var rep := ReplicaIn(st, gateway);
    var page := PullPage(st.reports, rep.cursor, limit);
    assert Agrees(st.reports, rep);
    PullKeepsAgreement(st.reports, rep, limit);
    PageReceived(st, gateway, page);
    assert Step(st, Pull(gateway, limit)) == Received(st, gateway, page);
    assert SafePull(st, Pull(gateway, limit)) <==> OpenBehind(st, page.maxSeqId);
  }

  ghost predicate OpenBehind(st: State, cursor: int) {
    forall tx :: tx in st.open ==> Behind(cursor, st.open[tx])
  }

  lemma PageReceived(st: State, gateway: Id, page: Page)
    requires AllAgree(st) && Agrees(st.reports, Absorb(ReplicaIn(st, gateway), page))
    ensures AllAgree(Received(st, gateway, page))
    ensures CursorsBehind(st) ==>
              (CursorsBehind(Received(st, gateway, page)) <==> OpenBehind(st, page.maxSeqId))
  {
    assert gateway in Received(st, gateway, page).replicas;
    assert Received(st, gateway, page).replicas[gateway].cursor == page.maxSeqId;
  }

  /** All commits that could come next keep all replicas in agreement iff no cursor has reached an open row. */
  lemma CommitsAgreeIff(st: State)
    requires BaseInv(st) && AllAgree(st)
    ensures (forall tx :: tx in st.open ==> AllAgree(Step(st, Commit(tx)))) <==> CursorsBehind(st)
  {
    forall tx, g | tx in st.open && g in st.replicas
      ensures Agrees(Step(st, Commit(tx)).reports, st.replicas[g]) <==> Behind(st.replicas[g].cursor, st.open[tx])
    {
      CommitAgreesIff(st, tx, st.replicas[g]);
    }
    assert forall tx, g :: tx in st.open && g in st.replicas ==> Step(st, Commit(tx)).replicas[g] == st.replicas[g];
  }

  /**
   The condition on a pull is exact: it carries no cursor to an open row if and only if agreement
   survives the commit of whichever open batch commits next.
   */
  lemma SafePullIff(st: State, gateway: Id, limit: nat)
    requires SafeInv(st)
    ensures var pulled := Step(st, Pull(gateway, limit));
            SafePull(st, Pull(gateway, limit)) <==> forall tx :: tx in pulled.open ==> AllAgree(Step(pulled, Commit(tx)))
  {
    StepBase(st, Pull(gateway, limit));
    PullEffect(st, gateway, limit);
    CommitsAgreeIff(Step(st, Pull(gateway, limit)));
  }

  lemma SafeStep(st: State, e: Event)
    requires SafeInv(st) && SafePull(st, e)
    ensures SafeInv(Step(st, e))
  {
    StepBase(st, e);
    match e
    case Begin(tx) => BeginBehind(st, tx);
    case Write(tx, id, row) => WriteBehind(st, tx, id, row);
    case Log(_) =>
    case Commit(tx) => CommitBehind(st, tx);
    case Rollback(tx) => RollbackBehind(st, tx);
    case Pull(gateway, limit) => PullEffect(st, gateway, limit);
  }

  lemma BeginBehind(st: State, tx: int)
    requires CursorsBehind(st) && AllAgree(st)
    ensures CursorsBehind(Step(st, Begin(tx))) && AllAgree(Step(st, Begin(tx)))
  {
  }

  lemma CommitBehind(st: State, tx: int)
    requires SafeInv(st)
    ensures CursorsBehind(Step(st, Commit(tx))) && AllAgree(Step(st, Commit(tx)))
  {
    CommitsAgreeIff(st);
  }

  lemma RollbackBehind(st: State, tx: int)
    requires CursorsBehind(st) && AllAgree(st)
    ensures CursorsBehind(Step(st, Rollback(tx))) && AllAgree(Step(st, Rollback(tx)))
  {
  }

  lemma WriteBehind(st: State, tx: int, id: Id, row: Row)
    requires CursorsBehind(st) && forall g :: g in st.replicas ==> st.replicas[g].cursor <= st.counter
    ensures CursorsBehind(Step(st, Write(tx, id, row)))
  {
  }

  lemma {:induction false} SafeRunsKeep(st: State, events: seq<Event>)
    requires SafeInv(st) && SafeRun(st, events)
    ensures SafeInv(Run(st, events))
    decreases |events|
  {
    if events != [] {
      SafeStep(st, events[0]);
      SafeRunsKeep(Step(st, events[0]), events[1..]);
    }
  }

  /**
   With batches open, every replica agrees with the table throughout every run in which no pull
   carries a cursor to the number of a row that an uncommitted batch has written.
   */
  lemma SafeRunsAgree(events: seq<Event>)
    requires SafeRun(START, events)
    ensures AllAgree(Run(START, events))
  {
    SafeRunsKeep(START, events);
  }

  // ---- Safety of a pull, seen before it is made ----

  function Between(t: Table, low: int, high: int): set<Id> {
    set id | id in t && low < t[id].seqId < high
  }

  /**
   For a number `n` of an open row: the cursor is below it, and either so are all rows a pull could
   send, or enough of them to fill the page.
   */
  ghost predicate FillsBefore(t: Table, since: int, limit: nat, n: int) {
    since < n && ((forall id :: id in Above(t, since) ==> t[id].seqId < n) || |Between(t, since, n)| >= limit)
  }

  ghost predicate HeadroomFor(st: State, gateway: Id, limit: nat) {
    forall tx, id :: tx in st.open && id in st.open[tx] ==>
      FillsBefore(st.reports, ReplicaIn(st, gateway).cursor, limit, st.open[tx][id].seqId)
  }

  /** As many elements as positions, if no two positions hold the same. */
  lemma {:induction false} ListedOnce<T>(q: seq<T>, s: set<T>)
    requires forall i, j :: 0 <= i < j < |q| ==> q[i] != q[j]
    requires forall x :: x in q ==> x in s
    ensures |q| <= |s|
    decreases |q|
  {
    if q != [] {
      assert q == [q[0]] + q[1..];
      ListedOnce(q[1..], s - {q[0]});
    }
  }

  lemma {:induction false} Covering<T>(q: seq<T>, s: set<T>)
    requires forall x :: x in s ==> x in q
    ensures |s| <= |q|
    decreases |q|
  {
    if q == [] {
      assert s == {};
    } else {
      assert q == [q[0]] + q[1..];
      Covering(q[1..], s - {q[0]});
    }
  }

  /** A full page stays below `n` exactly if enough rows do. */
  lemma FullPageBelow(t: Table, since: int, all: seq<Id>, limit: nat, n: int)
    requires Lists(all, Above(t, since), SeqOrder(t)) && 1 <= limit <= |all|
    requires forall k :: 0 <= k < |all| ==> all[k] in t && since < t[all[k]].seqId != n
    ensures t[all[limit - 1]].seqId < n <==> |Between(t, since, n)| >= limit
  {
    forall i, j | 0 <= i < j < |all| ensures all[i] != all[j] && t[all[i]].seqId <= t[all[j]].seqId {
      assert SeqOrder(t)(all[i], all[j]);
    }
    if t[all[limit - 1]].seqId < n {
      assert forall x :: x in all[..limit] ==> x in Between(t, since, n);
      ListedOnce(all[..limit], Between(t, since, n));
    } else {
      forall x | x in Between(t, since, n) ensures x in all[..limit - 1] {
        assert x in Above(t, since);
        var k :| 0 <= k < |all| && all[k] == x;
        assert k < limit - 1;
        assert all[..limit - 1][k] == x;
      }
      Covering(all[..limit - 1], Between(t, since, n));
    }
  }

  /** `page` lists the first rows of the ascending listing `all`. */
  ghost predicate Heads(t: Table, since: int, all: seq<Id>, page: Page) {
    && Lists(all, Above(t, since), SeqOrder(t))
    && (forall k :: 0 <= k < |all| ==> all[k] in t && since < t[all[k]].seqId)
    && |page.items| <= |all|
    && (forall k :: 0 <= k < |page.items| ==> page.items[k] == ToPullItem(all[k], t[all[k]]))
    && page.maxSeqId == MaxSeqId(page.items, since)
  }

  lemma PageHeads(t: Table, since: int, limit: nat)
    ensures var all, page := AscendingAfter(t, since), PullPage(t, since, limit);
            Heads(t, since, all, page) && |page.items| == if |all| <= limit then |all| else limit
  {
    AscendingLists(t, since);
    PageItems(t, since, limit);
    var all := AscendingAfter(t, since);
    forall k | 0 <= k < |all| ensures all[k] in t && since < t[all[k]].seqId {
      assert all[k] in all && all[k] in Above(t, since);
    }
  }

  lemma LastIsMaximum(t: Table, since: int, all: seq<Id>, page: Page)
    requires Heads(t, since, all, page)
    ensures page.maxSeqId == if page.items == [] then since else t[all[|page.items| - 1]].seqId
  {
    MaxSeqIdIsMax(page.items, since);
    if page.items != [] {
      var last := |page.items| - 1;
      forall i | 0 <= i < |page.items| ensures page.items[i].seqId <= page.items[last].seqId {
        assert i < last ==> SeqOrder(t)(all[i], all[last]);
      }
    }
  }

  /** A page that is not full is everything above the cursor. */
  lemma ShortPageBelow(t: Table, since: int, all: seq<Id>, limit: nat, n: int)
    requires Lists(all, Above(t, since), SeqOrder(t)) && |all| < limit
    requires forall k :: 0 <= k < |all| ==> all[k] in t
    ensures FillsBefore(t, since, limit, n) <==> since < n && (all != [] ==> t[all[|all| - 1]].seqId < n)
  {
    forall x | x in Between(t, since, n) ensures x in all {
      assert x in Above(t, since);
    }
    Covering(all, Between(t, since, n));
    if all != [] {
      var last := all[|all| - 1];
      assert last in all;
      forall id | id in Above(t, since) ensures t[id].seqId <= t[last].seqId {
        var k :| 0 <= k < |all| && all[k] == id;
        assert k < |all| - 1 ==> SeqOrder(t)(all[k], last);
      }
    } else {
      assert forall id :: id in Above(t, since) ==> id in all;
    }
  }

  lemma HeadsBelow(t: Table, since: int, all: seq<Id>, page: Page, limit: nat, n: int)
    requires Heads(t, since, all, page) && |page.items| == if |all| <= limit then |all| else limit
    requires forall id :: id in t ==> t[id].seqId != n
    ensures page.maxSeqId < n <==> FillsBefore(t, since, limit, n)
  {
    LastIsMaximum(t, since, all, page);
    if |all| < limit {
      ShortPageBelow(t, since, all, limit, n);
    } else if limit > 0 {
      FullPageBelow(t, since, all, limit, n);
      assert all[limit - 1] in all && all[limit - 1] in Above(t, since);
    }
  }

  /** Whether a pull is safe can be told from the numbers in use before it is made. */
  lemma SafePullBeforehand(st: State, gateway: Id, limit: nat)
    requires Numbered(st)
    ensures SafePull(st, Pull(gateway, limit)) <==> HeadroomFor(st, gateway, limit)
  {
    var since := ReplicaIn(st, gateway).cursor;
    forall tx, id | tx in st.open && id in st.open[tx]
      ensures PullPage(st.reports, since, limit).maxSeqId < st.open[tx][id].seqId
              <==> FillsBefore(st.reports, since, limit, st.open[tx][id].seqId)
    {
      assert BatchNumbered(st.open[tx], st.reports, st.counter);
      PageHeads(st.reports, since, limit);
      HeadsBelow(st.reports, since, AscendingAfter(st.reports, since), PullPage(st.reports, since, limit), limit,
                 st.open[tx][id].seqId);
    }
  }

  // ---- A run that is not safe ----

  /** Batch 1 has written row `x` and is still open; batch 2 has written row `y` and committed. */
  ghost function Race(x: Id, y: Id, row: Row): State {
    var one := Step(Step(START, Begin(1)), Write(1, x, row));
    Step(Step(Step(one, Begin(2)), Write(2, y, row)), Commit(2))
  }

  lemma BeginAndWrite(st: State, tx: int, id: Id, row: Row)
    requires SafeInv(st) && tx !in st.open
    ensures var st' := Step(Step(st, Begin(tx)), Write(tx, id, row));
            && SafeInv(st') && st'.replicas == st.replicas && st'.reports == st.reports
            && st'.counter == st.counter + 1
            && st'.open == st.open[tx := map[id := row.(seqId := st.counter + 1)]]
  {
    var begun := Step(st, Begin(tx));
    SafeStep(st, Begin(tx));
    SafeStep(begun, Write(tx, id, row));
    assert begun.open[tx][id := row.(seqId := st.counter + 1)] == map[id := row.(seqId := st.counter + 1)];
  }

  lemma RaceState(x: Id, y: Id, row: Row)
    ensures var st := Race(x, y, row);
            && SafeInv(st) && st.replicas == map[]
            && st.reports.Keys == {y} && st.reports[y].seqId == 2
            && 1 in st.open && x in st.open[1] && st.open[1][x].seqId == 1
  {
    var one := Step(Step(START, Begin(1)), Write(1, x, row));
    BeginAndWrite(START, 1, x, row);
    BeginAndWrite(one, 2, y, row);
    SafeStep(Step(Step(one, Begin(2)), Write(2, y, row)), Commit(2));
  }

  /** If a gateway pulls in that state, there is a next commit that loses a row for it. */
  lemma UnsafePullLosesRow(x: Id, y: Id, row: Row, gateway: Id, limit: nat)
    requires limit >= 1
    ensures var pulled := Step(Race(x, y, row), Pull(gateway, limit));
            exists tx :: tx in pulled.open && !AllAgree(Step(pulled, Commit(tx)))
  {
    var race := Race(x, y, row);
    RaceState(x, y, row);
    OneRowPage(race.reports, y, limit);
    assert !Behind(2, race.open[1]);
    SafePullIff(race, gateway, limit);
  }

  lemma OneRowPage(t: Table, y: Id, limit: nat)
    requires t.Keys == {y} && t[y].seqId == 2 && limit >= 1
    ensures PullPage(t, 0, limit).maxSeqId == 2
  {
    PageItems(t, 0, limit);
    PageCovers(t, 0, limit);
    assert Above(t, 0) == {y};
    MaxSeqIdIsMax(PullPage(t, 0, limit).items, 0);
  }

  // ---- Serial pushes are the special case ----

  /** The writes one merged item makes. */
  ghost function TurnEvents(tx: int, p: Progress, item: Item, gateway: Id): seq<Event> {
    match ApplyItem(p.reports, p.counter, item, gateway)
    case Touched(t, _, id) => if id in t then [Write(tx, id, t[id])] else []
    case _ => []
  }

  ghost function LoopEvents(tx: int, p: Progress, items: seq<Item>, gateway: Id, known: bool, fault: Option<int>): seq<Event>
    decreases |items|
  {
    if items == [] then []
    else
      match ItemTurn(p, items[0], gateway, known, fault)
      case Failed(_, _) => []
      case Running(q) => TurnEvents(tx, p, items[0], gateway) + LoopEvents(tx, q, items[1..], gateway, known, fault)
  }

  /** The open batch `tx` of `st` is where the item loop stands at `p`. */
  ghost predicate Mirrors(st: State, tx: int, p: Progress) {
    tx in st.open && st.counter == p.counter && st.reports + st.open[tx] == p.reports
  }

  lemma TurnMirrored(st: State, tx: int, p: Progress, item: Item, gateway: Id, known: bool, fault: Option<int>)
    requires Mirrors(st, tx, p) && ProgressInv(p)
    ensures match ItemTurn(p, item, gateway, known, fault)
            case Failed(_, _) => true
            case Running(q) =>
              var st' := Run(st, TurnEvents(tx, p, item, gateway));
              Mirrors(st', tx, q) && st'.reports == st.reports && st'.replicas == st.replicas
  {
    if ApplyItem(p.reports, p.counter, item, gateway).Touched? {
      TouchMirrored(st, tx, p, item, gateway);
    }
  }

  lemma TouchMirrored(st: State, tx: int, p: Progress, item: Item, gateway: Id)
    requires Mirrors(st, tx, p) && ProgressInv(p) && ApplyItem(p.reports, p.counter, item, gateway).Touched?
    ensures var outcome := ApplyItem(p.reports, p.counter, item, gateway);
            var st' := Run(st, TurnEvents(tx, p, item, gateway));
            && tx in st'.open && st'.counter == outcome.counter
            && st'.reports + st'.open[tx] == outcome.reports
            && st'.reports == st.reports && st'.replicas == st.replicas
  {
    ItemAdvances(p.reports, p.counter, item, gateway);
    var outcome := ApplyItem(p.reports, p.counter, item, gateway);
    var t, id := outcome.reports, outcome.rowId;
    OneRowWritten(p.reports, p.counter, t, outcome.counter, id);
    WriteMirrored(st, tx, p.reports, id, t[id]);
    RunOne(st, Write(tx, id, t[id]));
  }

  lemma OneRowWritten(t: Table, c: int, t': Table, c': int, id: Id)
    requires Advances(t, c, t', c', {id})
    ensures t' == t[id := t'[id]]
  {
  }

  lemma RunOne(st: State, e: Event)
    ensures Run(st, [e]) == Step(st, e)
  {
  }

  lemma WriteMirrored(st: State, tx: int, t: Table, id: Id, row: Row)
    requires tx in st.open && st.reports + st.open[tx] == t && row.seqId == st.counter + 1
    ensures var st' := Step(st, Write(tx, id, row));
            && tx in st'.open && st'.counter == row.seqId
            && st'.reports == st.reports && st'.replicas == st.replicas
            && st'.reports + st'.open[tx] == t[id := row]
  {
    assert row.(seqId := st.counter + 1) == row;
  }

  lemma {:induction false} RunConcat(st: State, a: seq<Event>, b: seq<Event>)
    ensures Run(st, a + b) == Run(Run(st, a), b)
    decreases |a|
  {
    if a == [] {
      assert a + b == b;
    } else {
      assert (a + b)[1..] == a[1..] + b;
      RunConcat(Step(st, a[0]), a[1..], b);
    }
  }

  lemma {:induction false} LoopMirrored(st: State, tx: int, p: Progress, items: seq<Item>, gateway: Id, known: bool,
                                        fault: Option<int>)
    requires Mirrors(st, tx, p) && ProgressInv(p)
    ensures match ItemLoop(p, items, gateway, known, fault)
            case Failed(_, _) => true
            case Running(q) =>
              var st' := Run(st, LoopEvents(tx, p, items, gateway, known, fault));
              Mirrors(st', tx, q) && st'.reports == st.reports && st'.replicas == st.replicas
    decreases |items|
  {
    if items != [] {
      TurnContinues(p, items[0], gateway, known, fault);
      TurnMirrored(st, tx, p, items[0], gateway, known, fault);
      match ItemTurn(p, items[0], gateway, known, fault) {
        case Failed(_, _) =>
        case Running(q) =>
          var events := TurnEvents(tx, p, items[0], gateway);
          LoopMirrored(Run(st, events), tx, q, items[1..], gateway, known, fault);
          RunConcat(st, events, LoopEvents(tx, q, items[1..], gateway, known, fault));
      }
    }
  }

  /**
   An accepted push is a batch that begins, writes its rows, takes a number for its log and commits
   with nothing in between: same table, same counter, replicas untouched.
   */
  lemma PushIsOpenBatch(st: State, tx: int, db: Db, s: Settings, body: Body, now: Time, fault: Option<int>)
    requires TableInv(db.reports, st.counter) && st.reports == db.reports && tx !in st.open
    requires MergeBatch(db, st.counter, s, body, now, fault).Done?
    ensures var known := body.gateway in SeeGateway(db.gateways, body, now, s.requireAuth);
            var p := Progress(db.reports, st.counter, 0, [], []);
            var st' := Run(Step(st, Begin(tx)), LoopEvents(tx, p, body.reports, body.gateway, known, fault));
            var done := Step(Step(st', Log(tx)), Commit(tx));
            var outcome := MergeBatch(db, st.counter, s, body, now, fault);
            done.reports == outcome.db.reports && done.counter == outcome.counter && done.replicas == st.replicas
  {
    var known := body.gateway in SeeGateway(db.gateways, body, now, s.requireAuth);
    var begun := Step(st, Begin(tx));
    assert begun.reports + begun.open[tx] == db.reports;
    LoopMirrored(begun, tx, Progress(db.reports, st.counter, 0, [], []), body.reports, body.gateway, known, fault);
  }

  /** Writes of one batch touch nothing outside it. */
  ghost predicate OwnWrites(tx: int, events: seq<Event>) {
    forall i :: 0 <= i < |events| ==> events[i].Write? && events[i].tx == tx
  }

  lemma {:induction false} OwnWritesStayInside(st: State, tx: int, events: seq<Event>)
    requires tx in st.open && OwnWrites(tx, events)
    ensures var st' := Run(st, events);
            && tx in st'.open && st'.open - {tx} == st.open - {tx}
            && st'.reports == st.reports && st'.replicas == st.replicas
    decreases |events|
  {
    if events != [] {
      var st1 := Step(st, events[0]);
      assert st1.open - {tx} == st.open - {tx};
      OwnWritesStayInside(st1, tx, events[1..]);
    }
  }

  lemma {:induction false} LoopEventsOwn(tx: int, p: Progress, items: seq<Item>, gateway: Id, known: bool, fault: Option<int>)
    ensures OwnWrites(tx, LoopEvents(tx, p, items, gateway, known, fault))
    decreases |items|
  {
    if items != [] {
      match ItemTurn(p, items[0], gateway, known, fault) {
        case Failed(_, _) =>
        case Running(q) => LoopEventsOwn(tx, q, items[1..], gateway, known, fault);
      }
    }
  }

  /** A loop that fails has used at most one number more than the rows it wrote. */
  lemma {:induction false} FailedLoopCounts(st: State, tx: int, p: Progress, items: seq<Item>, gateway: Id, known: bool,
                                            fault: Option<int>)
    requires Mirrors(st, tx, p) && ProgressInv(p) && ItemLoop(p, items, gateway, known, fault).Failed?
    ensures var st' := Run(st, LoopEvents(tx, p, items, gateway, known, fault));
            st'.counter <= ItemLoop(p, items, gateway, known, fault).counter <= st'.counter + 1
    decreases |items|
  {
    TurnContinues(p, items[0], gateway, known, fault);
    TurnMirrored(st, tx, p, items[0], gateway, known, fault);
    match ItemTurn(p, items[0], gateway, known, fault) {
      case Failed(_, _) =>
      case Running(q) =>
        var events := TurnEvents(tx, p, items[0], gateway);
        FailedLoopCounts(Run(st, events), tx, q, items[1..], gateway, known, fault);
        RunConcat(st, events, LoopEvents(tx, q, items[1..], gateway, known, fault));
    }
  }

  /**
   An aborted push is a batch that begins, writes some rows, perhaps takes one more number and is
   rolled back: everything is as before except the counter, which keeps the numbers used.
   */
  lemma AbortIsRollback(st: State, tx: int, db: Db, s: Settings, body: Body, now: Time, fault: Option<int>)
    requires TableInv(db.reports, st.counter) && st.reports == db.reports && tx !in st.open
    requires MergeBatch(db, st.counter, s, body, now, fault).Aborted?
    ensures var known := body.gateway in SeeGateway(db.gateways, body, now, s.requireAuth);
            var p := Progress(db.reports, st.counter, 0, [], []);
            var st' := Run(Step(st, Begin(tx)), LoopEvents(tx, p, body.reports, body.gateway, known, fault));
            var used := MergeBatch(db, st.counter, s, body, now, fault).counter;
            && (used == st'.counter || used == st'.counter + 1)
            && Step(if used == st'.counter then st' else Step(st', Log(tx)), Rollback(tx)) == st.(counter := used)
  {
    var known := body.gateway in SeeGateway(db.gateways, body, now, s.requireAuth);
    var p := Progress(db.reports, st.counter, 0, [], []);
    var begun := Step(st, Begin(tx));
    var events := LoopEvents(tx, p, body.reports, body.gateway, known, fault);
    assert begun.reports + begun.open[tx] == db.reports;
    LoopEventsOwn(tx, p, body.reports, body.gateway, known, fault);
    OwnWritesStayInside(begun, tx, events);
    if ItemLoop(p, body.reports, body.gateway, known, fault).Failed? {
      FailedLoopCounts(begun, tx, p, body.reports, body.gateway, known, fault);
    } else {
      LoopMirrored(begun, tx, p, body.reports, body.gateway, known, fault);
    }
    assert begun.open - {tx} == st.open;
  }
}
