/** Downward sync: pages of rows above a cursor, and the replica a gateway builds from them. */
module SyncPull {
  import opened Options
  import opened Reports
  import opened Ordering

  datatype PullItem = PullItem(
    id: Id,
    kind: Kind,
    segmentKey: Option<string>,
    status: string,
    payload: Payload,
    createdAt: Time,
    updatedAt: Time,
    deletedAt: Option<Time>,
    gateway: Option<Id>,
    seqId: int,
    isTombstone: bool)

  datatype Page = Page(items: seq<PullItem>, maxSeqId: int, hasMore: bool)

  function ToPullItem(id: Id, r: Row): PullItem {
    PullItem(id, r.kind, r.segmentKey, r.status, r.payload, r.createdAt, r.updatedAt, r.deletedAt, r.gateway,
             r.seqId, r.isTombstone)
  }

  /** The whole table as a pull shows it. */
  function View(t: Table): map<Id, PullItem> {
    map id | id in t :: ToPullItem(id, t[id])
  }

  function Above(t: Table, since: int): set<Id> {
    set id | id in t && t[id].seqId > since
  }

  /** Ascending sequence number. The column is unique; the id only makes the order total on any table. */
  predicate LowerSeq(t: Table, a: Id, b: Id) {
    a in t && b in t && (t[a].seqId < t[b].seqId || (t[a].seqId == t[b].seqId && a < b))
  }

  function SeqOrder(t: Table): (Id, Id) -> bool {
    (a: Id, b: Id) => LowerSeq(t, a, b)
  }

  ghost function AscendingAfter(t: Table, since: int): seq<Id> {
    OrderBy(Above(t, since), SeqOrder(t))
  }

  function ItemsOf(t: Table, ids: seq<Id>): seq<PullItem>
    requires forall id :: id in ids ==> id in t
  {
    seq(|ids|, i requires 0 <= i < |ids| => ToPullItem(ids[i], t[ids[i]]))
  }

  function MaxSeqId(items: seq<PullItem>, since: int): int {
    if items == [] then since
    else
      var m := MaxSeqId(items[..|items| - 1], since);
      if m >= items[|items| - 1].seqId then m else items[|items| - 1].seqId
  }

  lemma AscendingLists(t: Table, since: int)
    ensures Lists(AscendingAfter(t, since), Above(t, since), SeqOrder(t))
    ensures forall id :: id in AscendingAfter(t, since) ==> id in t
  {
    OrderByLists(Above(t, since), SeqOrder(t));
  }

  /** One more row than asked for is selected, only to learn whether there is a next page. */
  ghost function PullPage(t: Table, since: int, limit: nat): Page {
    AscendingLists(t, since);
    var rows := Take(AscendingAfter(t, since), limit + 1);
    var items := ItemsOf(t, Take(rows, limit));
    Page(items, MaxSeqId(items, since), |rows| > limit)
  }

  /** The page read off the selected rows. */
  lemma SelectedPage(t: Table, since: int, limit: nat, rows: seq<Id>)
    requires rows == Take(AscendingAfter(t, since), limit + 1)
    ensures forall id :: id in Take(rows, limit) ==> id in t
    ensures var items := ItemsOf(t, Take(rows, limit));
            PullPage(t, since, limit) == Page(items, MaxSeqId(items, since), |rows| > limit)
  {
    AscendingLists(t, since);
  }

  // ---- What one page covers ----

  lemma {:induction false} MaxSeqIdIsMax(items: seq<PullItem>, since: int)
    ensures since <= MaxSeqId(items, since)
    ensures forall i :: 0 <= i < |items| ==> items[i].seqId <= MaxSeqId(items, since)
    ensures MaxSeqId(items, since) == since || exists i :: 0 <= i < |items| && items[i].seqId == MaxSeqId(items, since)
  {
    if items != [] {
      var init := items[..|items| - 1];
      MaxSeqIdIsMax(init, since);
      if MaxSeqId(items, since) == MaxSeqId(init, since) && MaxSeqId(init, since) != since {
        var i :| 0 <= i < |init| && init[i].seqId == MaxSeqId(init, since);
        assert items[i].seqId == MaxSeqId(items, since);
      }
    }
  }

  ghost predicate Shows(t: Table, items: seq<PullItem>) {
    forall i :: 0 <= i < |items| ==> items[i].id in t && items[i] == ToPullItem(items[i].id, t[items[i].id])
  }

  /** The page is exactly the rows numbered above `since` and up to its own maximum. */
  ghost predicate Covers(t: Table, since: int, page: Page) {
    && since <= page.maxSeqId
    && Shows(t, page.items)
    && (forall i :: 0 <= i < |page.items| ==> since < page.items[i].seqId <= page.maxSeqId)
    && (forall id :: id in t && since < t[id].seqId <= page.maxSeqId ==> ToPullItem(id, t[id]) in page.items)
  }

  ghost predicate Exhausts(t: Table, page: Page) {
    forall id :: id in t ==> t[id].seqId <= page.maxSeqId
  }

  lemma PageItems(t: Table, since: int, limit: nat)
    ensures var all, page := AscendingAfter(t, since), PullPage(t, since, limit);
            && |page.items| == (if |all| <= limit then |all| else limit)
            && page.hasMore == (|all| > limit)
            && page.maxSeqId == MaxSeqId(page.items, since)
            && forall i :: 0 <= i < |page.items| ==> all[i] in t && page.items[i] == ToPullItem(all[i], t[all[i]])
  {
    AscendingLists(t, since);
  }

  /** Every page covers its stretch of numbers, and one without a successor reaches the end. */
  lemma PageCovers(t: Table, since: int, limit: nat)
    requires DistinctSeqs(t)
    ensures Covers(t, since, PullPage(t, since, limit))
    ensures !PullPage(t, since, limit).hasMore ==> Exhausts(t, PullPage(t, since, limit))
  {
    AscendingLists(t, since);
    PageItems(t, since, limit);
    ListedPageCovers(t, since, AscendingAfter(t, since), PullPage(t, since, limit));
  }

  lemma ListedPageCovers(t: Table, since: int, all: seq<Id>, page: Page)
    requires DistinctSeqs(t) && Lists(all, Above(t, since), SeqOrder(t))
    requires |page.items| <= |all| && (page.hasMore || |page.items| == |all|)
    requires forall k :: 0 <= k < |page.items| ==> all[k] in t && page.items[k] == ToPullItem(all[k], t[all[k]])
    requires page.maxSeqId == MaxSeqId(page.items, since)
    ensures Covers(t, since, page)
    ensures !page.hasMore ==> Exhausts(t, page)
  {
    MaxSeqIdIsMax(page.items, since);
    forall k | 0 <= k < |all| ensures all[k] in t && since < t[all[k]].seqId {
      assert all[k] in all;
    }
    forall id | id in t && since < t[id].seqId && (!page.hasMore || t[id].seqId <= page.maxSeqId)
      ensures ToPullItem(id, t[id]) in page.items
    {
      assert id in Above(t, since);
      var i :| 0 <= i < |all| && all[i] == id;
      AtMostMaximum(t, since, all, page, i);
      assert page.items[i] == ToPullItem(id, t[id]);
    }
  }

  /** In an ascending listing, a row not above the maximum of the first items is one of them. */
  lemma AtMostMaximum(t: Table, since: int, all: seq<Id>, page: Page, i: nat)
    requires SortedBy(all, SeqOrder(t)) && i < |all| && DistinctSeqs(t)
    requires |page.items| <= |all| && (page.hasMore || |page.items| == |all|)
    requires forall k :: 0 <= k < |all| ==> all[k] in t && since < t[all[k]].seqId
    requires forall k :: 0 <= k < |page.items| ==> page.items[k] == ToPullItem(all[k], t[all[k]])
    requires page.maxSeqId == since || exists k :: 0 <= k < |page.items| && page.items[k].seqId == page.maxSeqId
    requires page.hasMore ==> t[all[i]].seqId <= page.maxSeqId
    ensures i < |page.items|
  {
    if page.hasMore {
      var k :| 0 <= k < |page.items| && page.items[k].seqId == page.maxSeqId;
      assert !SeqOrder(t)(all[k], all[i]);
    }
  }

  // ---- The replica ----

  datatype Replica = Replica(rows: map<Id, PullItem>, cursor: int)

  function Store(rows: map<Id, PullItem>, items: seq<PullItem>): map<Id, PullItem> {
    if items == [] then rows
    else
      var last := items[|items| - 1];
      Store(rows, items[..|items| - 1])[last.id := last]
  }

  function Absorb(rep: Replica, page: Page): Replica {
    Replica(Store(rep.rows, page.items), page.maxSeqId)
  }

  /** The replica equals the server on every row up to its cursor, and invents none. */
  ghost predicate Agrees(t: Table, rep: Replica) {
    && (forall id :: id in t && t[id].seqId <= rep.cursor ==> id in rep.rows && rep.rows[id] == ToPullItem(id, t[id]))
    && (forall id :: id in rep.rows ==> id in t && rep.rows[id].seqId <= rep.cursor)
  }

  /** Storing items that show the current table makes those rows current and keeps the others. */
  lemma {:induction false} StoreShows(t: Table, rows: map<Id, PullItem>, items: seq<PullItem>, id: Id)
    requires Shows(t, items)
    ensures var stored := Store(rows, items);
            if id in t && ToPullItem(id, t[id]) in items then id in stored && stored[id] == ToPullItem(id, t[id])
            else if id in rows then id in stored && stored[id] == rows[id]
            else id !in stored
  {
    if items != [] {
      var init, last := items[..|items| - 1], items[|items| - 1];
      assert Shows(t, init);
      StoreShows(t, rows, init, id);
      assert items == init + [last];
      assert forall x :: x in items <==> x in init || x == last;
    }
  }

  /** A pull keeps a replica in agreement; the last page leaves it equal to the whole table. */
  lemma PullKeepsAgreement(t: Table, rep: Replica, limit: nat)
    requires DistinctSeqs(t) && Agrees(t, rep)
    ensures var page := PullPage(t, rep.cursor, limit);
            && Agrees(t, Absorb(rep, page))
            && (!page.hasMore ==> Absorb(rep, page).rows == View(t))
  {
    var page := PullPage(t, rep.cursor, limit);
    PageCovers(t, rep.cursor, limit);
    AbsorbAgrees(t, rep, page);
  }

  lemma AbsorbAgrees(t: Table, rep: Replica, page: Page)
    requires Agrees(t, rep) && Covers(t, rep.cursor, page)
    ensures Agrees(t, Absorb(rep, page))
    ensures Exhausts(t, page) ==> Absorb(rep, page).rows == View(t)
  {
    var rep' := Absorb(rep, page);
    forall id | id in t && t[id].seqId <= rep'.cursor
      ensures id in rep'.rows && rep'.rows[id] == ToPullItem(id, t[id])
    {
      StoreShows(t, rep.rows, page.items, id);
    }
    forall id | id in rep'.rows ensures id in t && rep'.rows[id].seqId <= rep'.cursor {
      StoreShows(t, rep.rows, page.items, id);
    }
  }

  // ---- Page-size independence ----

  datatype Pulled = Pulled(items: seq<PullItem>, pulls: nat)

  /** A client that follows the cursor while there is a next page. */
  ghost function PullAll(t: Table, since: int, limit: nat): Pulled
    requires limit >= 1 && DistinctSeqs(t)
    decreases |Above(t, since)|
  {
    var page := PullPage(t, since, limit);
    if !page.hasMore then Pulled(page.items, 1)
    else
      AboveShrinks(t, since, limit);
      var rest := PullAll(t, page.maxSeqId, limit);
      Pulled(page.items + rest.items, 1 + rest.pulls)
  }

  lemma AboveShrinks(t: Table, since: int, limit: nat)
    requires limit >= 1 && DistinctSeqs(t) && PullPage(t, since, limit).hasMore
    ensures Above(t, PullPage(t, since, limit).maxSeqId) < Above(t, since)
    ensures |Above(t, PullPage(t, since, limit).maxSeqId)| < |Above(t, since)|
  {
    var page := PullPage(t, since, limit);
    PageCovers(t, since, limit);
    var id := page.items[0].id;
    assert id in Above(t, since) && id !in Above(t, page.maxSeqId);
    SubsetSmaller(Above(t, page.maxSeqId), Above(t, since));
  }

  lemma SubsetSmaller<T>(a: set<T>, b: set<T>)
    requires a < b
    ensures |a| < |b|
  {
    var rest := b - a;
    assert b == a + rest && |b| == |a| + |rest|;
  }

  /** What is left after a full page is the rest of the same listing. */
  lemma RestAfterPage(t: Table, since: int, limit: nat)
    requires limit >= 1 && DistinctSeqs(t) && PullPage(t, since, limit).hasMore
    ensures |AscendingAfter(t, since)| > limit
    ensures AscendingAfter(t, PullPage(t, since, limit).maxSeqId) == AscendingAfter(t, since)[limit..]
  {
    var all, page := AscendingAfter(t, since), PullPage(t, since, limit);
    AscendingLists(t, since);
    PageItems(t, since, limit);
    RestLists(t, since, all, page, limit);
    AscendingUnique(t, page.maxSeqId, all[limit..]);
  }

  lemma AscendingUnique(t: Table, since: int, q: seq<Id>)
    requires Lists(q, Above(t, since), SeqOrder(t))
    ensures AscendingAfter(t, since) == q
  {
    AscendingLists(t, since);
    SortedUnique(AscendingAfter(t, since), q, Above(t, since), SeqOrder(t));
  }

  lemma RestLists(t: Table, since: int, all: seq<Id>, page: Page, limit: nat)
    requires DistinctSeqs(t) && Lists(all, Above(t, since), SeqOrder(t))
    requires page.hasMore && |page.items| == limit < |all|
    requires forall k :: 0 <= k < limit ==> all[k] in t && page.items[k] == ToPullItem(all[k], t[all[k]])
    requires page.maxSeqId == MaxSeqId(page.items, since)
    ensures Lists(all[limit..], Above(t, page.maxSeqId), SeqOrder(t))
  {
    MaxSeqIdIsMax(page.items, since);
    forall k | 0 <= k < |all|
      ensures all[k] in t && since < t[all[k]].seqId && (t[all[k]].seqId > page.maxSeqId <==> k >= limit)
    {
      assert all[k] in all;
      if t[all[k]].seqId <= page.maxSeqId {
        RestAbove(t, since, all, page, k);
      }
      assert k < limit ==> page.items[k].seqId <= page.maxSeqId;
    }
    var rest := all[limit..];
    forall id ensures id in rest <==> id in Above(t, page.maxSeqId) {
      if id in rest {
        var i :| 0 <= i < |rest| && rest[i] == id;
        assert all[limit + i] == id;
      }
      if id in Above(t, page.maxSeqId) {
        assert id in Above(t, since);
        var i :| 0 <= i < |all| && all[i] == id;
        assert rest[i - limit] == id;
      }
    }
    forall i, j | 0 <= i < j < |rest| ensures SeqOrder(t)(rest[i], rest[j]) {
      assert SeqOrder(t)(all[limit + i], all[limit + j]);
    }
  }

  lemma RestAbove(t: Table, since: int, all: seq<Id>, page: Page, k: nat)
    requires DistinctSeqs(t) && Lists(all, Above(t, since), SeqOrder(t))
    requires page.hasMore && |page.items| <= |all| && k < |all|
    requires forall k :: 0 <= k < |page.items| ==> all[k] in t && page.items[k] == ToPullItem(all[k], t[all[k]])
    requires page.maxSeqId == MaxSeqId(page.items, since)
    requires all[k] in t && t[all[k]].seqId <= page.maxSeqId
    ensures k < |page.items|
  {
    MaxSeqIdIsMax(page.items, since);
    forall j | 0 <= j < |all| ensures all[j] in t && since < t[all[j]].seqId {
      assert all[j] in all;
    }
    AtMostMaximum(t, since, all, page, k);
  }

  /** `pulls` is the ceiling of `n / limit`, but at least one. */
  predicate IsPageCount(pulls: nat, n: nat, limit: nat) {
    n <= pulls * limit && (pulls == 1 || (pulls > 1 && (pulls - 1) * limit < n))
  }

  lemma OneMorePage(pulls: nat, n: nat, limit: nat)
    requires 1 <= limit < n && IsPageCount(pulls, n - limit, limit)
    ensures IsPageCount(pulls + 1, n, limit)
  {
    assert (pulls + 1) * limit == pulls * limit + limit;
    assert pulls * limit == (pulls - 1) * limit + limit;
  }

  /** The items are those of the listed rows, one for one. */
  ghost predicate Shown(t: Table, ids: seq<Id>, items: seq<PullItem>) {
    |items| == |ids| && forall i :: 0 <= i < |ids| ==> ids[i] in t && items[i] == ToPullItem(ids[i], t[ids[i]])
  }

  lemma ShownConcat(t: Table, ids: seq<Id>, n: nat, first: seq<PullItem>, rest: seq<PullItem>)
    requires n <= |ids| && Shown(t, ids[..n], first) && Shown(t, ids[n..], rest)
    ensures Shown(t, ids, first + rest)
  {
    forall i | 0 <= i < |ids| ensures ids[i] in t && (first + rest)[i] == ToPullItem(ids[i], t[ids[i]]) {
      if i < n {
        assert ids[..n][i] == ids[i];
      } else {
        assert ids[n..][i - n] == ids[i];
      }
    }
  }

  lemma {:induction false} PagesYieldAll(t: Table, since: int, limit: nat)
    requires limit >= 1 && DistinctSeqs(t)
    ensures Shown(t, AscendingAfter(t, since), PullAll(t, since, limit).items)
    decreases |Above(t, since)|
  {
    var all, page := AscendingAfter(t, since), PullPage(t, since, limit);
    PageItems(t, since, limit);
    if page.hasMore {
      AboveShrinks(t, since, limit);
      RestAfterPage(t, since, limit);
      PagesYieldAll(t, page.maxSeqId, limit);
      ShownConcat(t, all, limit, page.items, PullAll(t, page.maxSeqId, limit).items);
    }
  }

  lemma {:induction false} PageCount(t: Table, since: int, limit: nat)
    requires limit >= 1 && DistinctSeqs(t)
    ensures IsPageCount(PullAll(t, since, limit).pulls, |Above(t, since)|, limit)
    decreases |Above(t, since)|
  {
    PageItems(t, since, limit);
    var page := PullPage(t, since, limit);
    if page.hasMore {
      AboveShrinks(t, since, limit);
      RestAfterPage(t, since, limit);
      PageCount(t, page.maxSeqId, limit);
      OneMorePage(PullAll(t, page.maxSeqId, limit).pulls, |AscendingAfter(t, since)|, limit);
    }
  }

  /**
   Whatever the page size, following the cursor over an unchanging table yields every row above the
   start, once each and in ascending order, in exactly max(1, ceil(n / limit)) pulls.
   */
  lemma PageSizeIndependence(t: Table, since: int, limit: nat)
    requires limit >= 1 && DistinctSeqs(t)
    ensures Lists(AscendingAfter(t, since), Above(t, since), SeqOrder(t))
    ensures Shown(t, AscendingAfter(t, since), PullAll(t, since, limit).items)
    ensures var items := PullAll(t, since, limit).items;
            && |items| == |Above(t, since)|
            && (forall i, j :: 0 <= i < j < |items| ==> items[i].seqId < items[j].seqId)
    ensures IsPageCount(PullAll(t, since, limit).pulls, |Above(t, since)|, limit)
  {
    AscendingLists(t, since);
    PagesYieldAll(t, since, limit);
    PageCount(t, since, limit);
    ShownAscending(t, AscendingAfter(t, since), PullAll(t, since, limit).items);
  }

  lemma ShownAscending(t: Table, ids: seq<Id>, items: seq<PullItem>)
    requires DistinctSeqs(t) && SortedBy(ids, SeqOrder(t)) && Shown(t, ids, items)
    ensures forall i, j :: 0 <= i < j < |items| ==> items[i].seqId < items[j].seqId
  {
    forall i, j | 0 <= i < j < |items| ensures items[i].seqId < items[j].seqId {
      assert SeqOrder(t)(ids[i], ids[j]);
    }
  }
}
