/**
 What a history of live items and tombstones on one road or supply key amounts to. `ExactOutcome`
 names the one arrival that survives, for every history, ties included; `OrderIndependenceIff` says
 exactly which histories, ties included, come out the same in every order of arrival, and
 `ServerOrderIndependenceIff` says it of what the server ends up with.
 */
module Histories {
  import opened Options
  import opened Reports
  import opened MergePolicy
  import opened MergeService
  import opened Worlds
  import opened KeyRefinement
  import opened IdAssignment

  function ArrivalStamp(a: Arrival): Stamp {
    Stamp(a.item.updatedAt, a.gateway)
  }

  predicate Tomb(a: Arrival) {
    IncomingIsTombstone(a.item)
  }

  predicate RoadLike(h: seq<Arrival>) {
    forall i :: 0 <= i < |h| ==> !h[i].item.kind.Sos?
  }

  /**
   Arriving later, `h[i]` would replace a row left by `h[j]`: it has the greater stamp, or the same
   one and an id above that of the row, which is the id of the first arrival.
   */
  predicate Over(h: seq<Arrival>, i: nat, j: nat)
    requires i < |h| && j < |h|
  {
    || StampLess(ArrivalStamp(h[j]), ArrivalStamp(h[i]))
    || (ArrivalStamp(h[j]) == ArrivalStamp(h[i]) && h[i].item.id > h[0].item.id)
  }

  /** A tombstone that beats every live item that arrived before it. */
  ghost predicate Establishes(h: seq<Arrival>, i: nat) {
    i < |h| && Tomb(h[i]) && forall j :: 0 <= j < i && !Tomb(h[j]) ==> Over(h, i, j)
  }

  ghost predicate Tombstoned(h: seq<Arrival>) {
    exists i :: Establishes(h, i)
  }

  /** `h[k]` is on the surviving side, beat all of its side before it and was not beaten after. */
  ghost predicate Winner(h: seq<Arrival>, k: nat) {
    && k < |h|
    && Tomb(h[k]) == Tombstoned(h)
    && (forall j :: 0 <= j < k && Tomb(h[j]) == Tombstoned(h) ==> Over(h, k, j))
    && (forall j :: k < j < |h| && Tomb(h[j]) == Tombstoned(h) ==> !Over(h, j, k))
  }

  ghost predicate EndsWith(h: seq<Arrival>, k: nat) {
    k < |h| && Fold(None, h) == Some(Cell(h[0].item.id, WrittenRow(h[k].item, h[k].gateway, 0)))
  }

  lemma WinnerUnique(h: seq<Arrival>, k: nat, l: nat)
    requires Winner(h, k) && Winner(h, l)
    ensures k == l
  {
  }

  /** Winners and established tombstones of a history, after one more arrival. */
  lemma PrefixSame(h: seq<Arrival>, n: nat)
    requires 0 < n == |h| - 1
    ensures forall i, j :: 0 <= i < n && 0 <= j < n ==> Over(h, i, j) == Over(h[..n], i, j)
    ensures forall i :: 0 <= i < n ==> Establishes(h, i) == Establishes(h[..n], i)
    ensures Tombstoned(h) <==> Tombstoned(h[..n]) || Establishes(h, n)
  {
    var g := h[..n];
    forall i | 0 <= i < n ensures Establishes(h, i) == Establishes(g, i) {
      assert forall j :: 0 <= j < i ==> Over(h, i, j) == Over(g, i, j) && h[j] == g[j];
    }
    if Tombstoned(g) {
      var i :| Establishes(g, i);
      assert Establishes(h, i);
    }
    if Tombstoned(h) && !Establishes(h, n) {
      var i :| Establishes(h, i);
      assert Establishes(g, i);
    }
  }

  /** While no tombstone is established, every tombstone so far lost to some live item before it. */
  lemma LosersBelow(h: seq<Arrival>, k: nat)
    requires Winner(h, k)
    ensures forall j :: 0 <= j < |h| ==> Tomb(h[j]) == Tombstoned(h) || !Tombstoned(h) ==>
              !StampLess(ArrivalStamp(h[k]), ArrivalStamp(h[j]))
  {
    if !Tombstoned(h) {
      forall j | 0 <= j < |h| && Tomb(h[j]) ensures !StampLess(ArrivalStamp(h[k]), ArrivalStamp(h[j])) {
        assert !Establishes(h, j);
        var i :| 0 <= i < j && !Tomb(h[i]) && !Over(h, j, i);
      }
    }
  }

  /** The last arrival either replaces the winner so far or changes nothing. */
  lemma NextWinner(h: seq<Arrival>, n: nat, k: nat)
    requires 0 < n == |h| - 1 && Winner(h[..n], k)
    ensures if (Tomb(h[k]) && !Tomb(h[n])) || !Over(h, n, k) then Winner(h, k) else Winner(h, n)
  {
    var g := h[..n];
    PrefixSame(h, n);
    LosersBelow(g, k);
    assert forall j :: 0 <= j < n ==> h[j] == g[j];
    if Tomb(h[k]) && !Tomb(h[n]) {
    } else if Over(h, n, k) {
      assert forall j :: 0 <= j < n && (Tomb(g[j]) == Tombstoned(g) || !Tombstoned(g)) ==> Over(h, n, j);
    } else {
      assert Tombstoned(h) == Tombstoned(g);
    }
  }

  lemma {:induction false} OutcomeExists(h: seq<Arrival>) returns (k: nat)
    requires h != [] && RoadLike(h)
    ensures Winner(h, k) && EndsWith(h, k)
    decreases |h|
  {
    var n := |h| - 1;
    if n == 0 {
      k := 0;
      assert Establishes(h, 0) == Tomb(h[0]);
      assert forall i :: Establishes(h, i) ==> i == 0;
      assert Fold(None, h) == CellStep(None, h[0]);
    } else {
      var g := h[..n];
      k := OutcomeExists(g);
      NextWinner(h, n, k);
      assert h == g + [h[n]];
      FoldConcat(None, g, [h[n]]);
      assert Fold(Fold(None, g), [h[n]]) == CellStep(Fold(None, g), h[n]);
      assert g[0] == h[0] && g[k] == h[k];
      if !((Tomb(h[k]) && !Tomb(h[n])) || !Over(h, n, k)) {
        k := n;
      }
    }
  }

  /**
   The exact outcome of any history: there is one winner, and the row ends up with the id of the
   first arrival and the columns of the winner. It is a tombstone if and only if some tombstone beat
   every live item before it, and its stamp is the greatest on its side.
   */
  lemma ExactOutcome(h: seq<Arrival>)
    requires h != [] && RoadLike(h)
    ensures exists k: nat :: Winner(h, k)
    ensures forall k: nat :: Winner(h, k) ==> EndsWith(h, k)
    ensures Fold(None, h).Some? && (Fold(None, h).value.row.isTombstone <==> Tombstoned(h))
    ensures forall j :: 0 <= j < |h| && Tomb(h[j]) == Tombstoned(h) ==>
              !StampLess(RowStamp(Fold(None, h).value.row), ArrivalStamp(h[j]))
  {
    var w := OutcomeExists(h);
    LosersBelow(h, w);
    forall k: nat | Winner(h, k) ensures EndsWith(h, k) {
      WinnerUnique(h, k, w);
    }
  }

  // ---- Orders of arrival ----

  /** The columns the history leaves; which id the row keeps does depend on who came first. */
  function Left(h: seq<Arrival>): Option<Row> {
    var cell := Fold(None, h);
    if cell.None? then None else Some(cell.value.row)
  }

  ghost predicate OrderIndependent(h: seq<Arrival>) {
    forall p :: multiset(p) == multiset(h) ==> Left(p) == Left(h)
  }

  /** The side that survives if tombstones prevail: the tombstones, or all arrivals if there is none. */
  ghost predicate OnSide(h: seq<Arrival>, a: Arrival) {
    a in h && (Tomb(a) || forall b :: b in h ==> !Tomb(b))
  }

  /** Nothing on that side has a greater stamp. */
  ghost predicate Top(h: seq<Arrival>, a: Arrival) {
    OnSide(h, a) && forall b :: OnSide(h, b) ==> !StampLess(ArrivalStamp(a), ArrivalStamp(b))
  }

  ghost predicate TopAbove(h: seq<Arrival>, f: Arrival, g: Arrival) {
    Top(h, g) && g.item.id > f.item.id
  }

  /**
   `g` is one of the arrivals that can have the last word when `f` comes first: a top one with an id
   above that of `f`; if there is none, then `f` if it is a top one itself, and else any top one.
   */
  ghost predicate Decides(h: seq<Arrival>, f: Arrival, g: Arrival) {
    && Top(h, g)
    && (if exists x :: TopAbove(h, f, x) then g.item.id > f.item.id else Top(h, f) ==> g == f)
  }

  /** With `f` first, the tombstone `t` is accepted however many live items came before it. */
  ghost predicate Buries(h: seq<Arrival>, f: Arrival, t: Arrival) {
    && t in h && Tomb(t)
    && forall l :: l in h && !Tomb(l) ==>
         || StampLess(ArrivalStamp(l), ArrivalStamp(t))
         || (ArrivalStamp(l) == ArrivalStamp(t) && t.item.id > f.item.id)
  }

  /** Whichever live item comes first, some tombstone is accepted. */
  ghost predicate TombstonesPrevail(h: seq<Arrival>) {
    (exists t :: t in h && Tomb(t)) ==> forall f :: f in h && !Tomb(f) ==> exists t :: Buries(h, f, t)
  }

  ghost predicate AllDecide(h: seq<Arrival>, row: Row) {
    forall f, g :: f in h && Decides(h, f, g) ==> WrittenRow(g.item, g.gateway, 0) == row
  }

  /** The order of arrival cannot matter. */
  ghost predicate Settled(h: seq<Arrival>) {
    TombstonesPrevail(h) && exists row :: AllDecide(h, row)
  }

  lemma SameElements(h: seq<Arrival>, p: seq<Arrival>)
    requires multiset(p) == multiset(h)
    ensures forall x :: x in p <==> x in h
    ensures RoadLike(h) ==> RoadLike(p)
    ensures p != [] <==> h != []
  {
    forall x ensures x in p <==> x in h {
      assert x in multiset(p) <==> x in p;
      assert x in multiset(h) <==> x in h;
    }
    assert forall i :: 0 <= i < |p| ==> p[i] in p;
    assert |multiset(p)| == |p| && |multiset(h)| == |h|;
  }

  /** Where tombstones prevail, a history with tombstones ends as one, and what survives is its side. */
  lemma SideSurvives(h: seq<Arrival>)
    requires h != [] && TombstonesPrevail(h)
    ensures Tombstoned(h) <==> exists t :: t in h && Tomb(t)
    ensures forall j :: 0 <= j < |h| ==> (Tomb(h[j]) == Tombstoned(h) <==> OnSide(h, h[j]))
  {
    if exists t :: t in h && Tomb(t) {
      if Tomb(h[0]) {
        assert Establishes(h, 0);
      } else {
        assert h[0] in h;
        var t :| Buries(h, h[0], t);
        var i :| 0 <= i < |h| && h[i] == t;
        assert Establishes(h, i);
      }
    }
  }

  /** Tops, deciders and the rest depend on what arrived, not on the order. */
  lemma SameDeciders(h: seq<Arrival>, p: seq<Arrival>)
    requires forall x :: x in p <==> x in h
    ensures TombstonesPrevail(p) == TombstonesPrevail(h)
    ensures forall a :: Top(p, a) == Top(h, a)
    ensures forall f, g :: Decides(p, f, g) == Decides(h, f, g)
  {
    assert forall a :: OnSide(p, a) == OnSide(h, a);
    assert forall a :: Top(p, a) == Top(h, a);
    assert forall f, g :: TopAbove(p, f, g) == TopAbove(h, f, g);
    assert forall f, t :: Buries(p, f, t) == Buries(h, f, t);
  }

  /** The winner of a history is a decider for its first arrival. */
  lemma WinnerDecides(h: seq<Arrival>, k: nat)
    requires Winner(h, k) && TombstonesPrevail(h)
    ensures Decides(h, h[0], h[k])
  {
    SideSurvives(h);
    LosersBelow(h, k);
    forall b | OnSide(h, b) ensures !StampLess(ArrivalStamp(h[k]), ArrivalStamp(b)) {
      var j :| 0 <= j < |h| && h[j] == b;
    }
    if x :| TopAbove(h, h[0], x) {
      var j :| 0 <= j < |h| && h[j] == x;
      assert ArrivalStamp(x) == ArrivalStamp(h[k]);
      assert j > k ==> !Over(h, j, k);
      assert j < k ==> Over(h, k, j);
    } else if Top(h, h[0]) {
      assert ArrivalStamp(h[0]) == ArrivalStamp(h[k]);
      assert k > 0 ==> Over(h, k, 0);
      assert !TopAbove(h, h[0], h[k]);
    }
  }

  /** A decider that arrives right after its first arrival, or is it, or comes last, wins. */
  lemma DeciderWins(p: seq<Arrival>, k: nat)
    requires p != [] && TombstonesPrevail(p) && k < |p| && Decides(p, p[0], p[k])
    requires if exists x :: TopAbove(p, p[0], x) then k == |p| - 1 else if Top(p, p[0]) then k == 0 else k == 1
    ensures Winner(p, k)
  {
    SideSurvives(p);
    forall j | 0 <= j < |p| && Tomb(p[j]) == Tombstoned(p)
      ensures !StampLess(ArrivalStamp(p[k]), ArrivalStamp(p[j]))
      ensures j < k ==> Over(p, k, j)
      ensures k < j ==> !Over(p, j, k)
    {
      assert OnSide(p, p[j]);
      assert !StampLess(ArrivalStamp(p[k]), ArrivalStamp(p[j]));
      if ArrivalStamp(p[j]) == ArrivalStamp(p[k]) {
        assert Top(p, p[j]);
        assert TopAbove(p, p[0], p[j]) <==> p[j].item.id > p[0].item.id;
      }
    }
  }

  function MovedFirst(h: seq<Arrival>, i: nat): seq<Arrival>
    requires i < |h|
  {
    [h[i]] + (h[..i] + h[i + 1..])
  }

  function MovedLast(h: seq<Arrival>, i: nat): seq<Arrival>
    requires i < |h|
  {
    (h[..i] + h[i + 1..]) + [h[i]]
  }

  lemma MovedPermutes(h: seq<Arrival>, i: nat)
    requires i < |h|
    ensures multiset(MovedFirst(h, i)) == multiset(h) && multiset(MovedLast(h, i)) == multiset(h)
  {
    assert h == h[..i] + [h[i]] + h[i + 1..];
  }

  lemma Fronted(h: seq<Arrival>, f: Arrival) returns (p: seq<Arrival>)
    requires f in h
    ensures multiset(p) == multiset(h) && |p| > 0 && p[0] == f
  {
    var i :| 0 <= i < |h| && h[i] == f;
    MovedPermutes(h, i);
    p := MovedFirst(h, i);
  }

  /** `f` first, and `g` right after it or at the end. */
  lemma Arranged(h: seq<Arrival>, f: Arrival, g: Arrival, last: bool) returns (p: seq<Arrival>)
    requires f in h && g in h && f != g
    ensures multiset(p) == multiset(h) && |p| > 1 && p[0] == f && p[if last then |p| - 1 else 1] == g
  {
    var q := Fronted(h, if last then f else g);
    SameElements(h, q);
    if last {
      var j :| 0 <= j < |q| && q[j] == g;
      MovedPermutes(q, j);
      p := MovedLast(q, j);
    } else {
      var j :| 0 <= j < |q| && q[j] == f;
      MovedPermutes(q, j);
      p := MovedFirst(q, j);
    }
  }

  /** Every decider has the last word in some order. */
  lemma DeciderRealised(h: seq<Arrival>, f: Arrival, g: Arrival) returns (p: seq<Arrival>)
    requires RoadLike(h) && TombstonesPrevail(h) && f in h && Decides(h, f, g)
    ensures multiset(p) == multiset(h) && Left(p) == Some(WrittenRow(g.item, g.gateway, 0))
  {
    var last := exists x :: TopAbove(h, f, x);
    if f == g {
      p := Fronted(h, f);
    } else {
      p := Arranged(h, f, g, last);
    }
    SameElements(h, p);
    SameDeciders(h, p);
    assert last <==> exists x :: TopAbove(p, f, x) by {
      assert forall x :: TopAbove(h, f, x) == TopAbove(p, f, x);
    }
    var k := if f == g then 0 else if last then |p| - 1 else 1;
    DeciderWins(p, k);
    ExactOutcome(p);
  }

  /** Where tombstones prevail, every order leaves what one of its deciders says. */
  lemma DeciderLeft(h: seq<Arrival>, p: seq<Arrival>) returns (g: Arrival)
    requires h != [] && RoadLike(h) && TombstonesPrevail(h) && multiset(p) == multiset(h)
    ensures p != [] && p[0] in h && Decides(h, p[0], g) && Left(p) == Some(WrittenRow(g.item, g.gateway, 0))
  {
    SameElements(h, p);
    SameDeciders(h, p);
    var k := OutcomeExists(p);
    WinnerDecides(p, k);
    g := p[k];
    assert p[0] in p;
  }

  function LiveOf(h: seq<Arrival>): seq<Arrival> {
    if h == [] then [] else (if Tomb(h[0]) then [] else [h[0]]) + LiveOf(h[1..])
  }

  function DeadOf(h: seq<Arrival>): seq<Arrival> {
    if h == [] then [] else (if Tomb(h[0]) then [h[0]] else []) + DeadOf(h[1..])
  }

  lemma {:induction false} SidesApart(h: seq<Arrival>)
    ensures multiset(LiveOf(h) + DeadOf(h)) == multiset(h)
    ensures forall a :: a in LiveOf(h) <==> a in h && !Tomb(a)
    ensures forall a :: a in DeadOf(h) <==> a in h && Tomb(a)
  {
    if h != [] {
      SidesApart(h[1..]);
      assert h == [h[0]] + h[1..];
    }
  }

  /** All live items first: if no tombstone can bury them, the history ends live. */
  lemma LiveFirst(h: seq<Arrival>, f: Arrival) returns (p: seq<Arrival>)
    requires f in h && !Tomb(f) && !exists t :: Buries(h, f, t)
    ensures multiset(p) == multiset(h) && !Tombstoned(p)
  {
    SidesApart(h);
    var live, dead := LiveOf(h), DeadOf(h);
    var first := Fronted(live, f);
    SameElements(live, first);
    p := first + dead;
    assert multiset(p) == multiset(first) + multiset(dead);
    assert multiset(live + dead) == multiset(live) + multiset(dead);
    assert forall j :: 0 <= j < |first| ==> p[j] in first && !Tomb(p[j]);
    forall i | 0 <= i < |p| ensures !Establishes(p, i) {
      if |first| <= i && Tomb(p[i]) {
        assert p[i] == dead[i - |first|] && p[i] in dead && p[i] in h;
        assert !Buries(h, f, p[i]);
        var l :| l in h && !Tomb(l) && !StampLess(ArrivalStamp(l), ArrivalStamp(p[i]))
          && !(ArrivalStamp(l) == ArrivalStamp(p[i]) && p[i].item.id > f.item.id);
        assert l in first;
        var j :| 0 <= j < |first| && first[j] == l;
        assert p[j] == l && p[0] == f && !Over(p, i, j);
      }
    }
  }

  /** A tombstone that comes first stays, so a history that can also end live depends on the order. */
  lemma CanEndBothWays(h: seq<Arrival>, f: Arrival, t: Arrival)
    requires RoadLike(h) && f in h && !Tomb(f) && !(exists x :: Buries(h, f, x)) && t in h && Tomb(t)
    ensures !OrderIndependent(h)
  {
    var dead := Fronted(h, t);
    var live := LiveFirst(h, f);
    SameElements(h, dead);
    SameElements(h, live);
    assert Establishes(dead, 0);
    ExactOutcome(dead);
    ExactOutcome(live);
    assert Left(dead) != Left(live);
  }

  lemma IndependentPrevails(h: seq<Arrival>)
    requires RoadLike(h) && OrderIndependent(h)
    ensures TombstonesPrevail(h)
  {
    if t :| t in h && Tomb(t) {
      forall f | f in h && !Tomb(f) ensures exists x :: Buries(h, f, x) {
        if !exists x :: Buries(h, f, x) {
          CanEndBothWays(h, f, t);
        }
      }
    }
  }

  /**
   Every order of arrival leaves the same columns if and only if, whichever live item comes first, the
   tombstones (if any) prevail, and all arrivals that could then have the last word, for any arrival
   that could come first, write the same columns.
   */
  lemma OrderIndependenceIff(h: seq<Arrival>)
    requires h != [] && RoadLike(h)
    ensures OrderIndependent(h) <==> Settled(h)
  {
    if OrderIndependent(h) {
      IndependentPrevails(h);
      forall f, g | f in h && Decides(h, f, g) ensures Some(WrittenRow(g.item, g.gateway, 0)) == Left(h) {
        var p := DeciderRealised(h, f, g);
      }
      ExactOutcome(h);
      assert AllDecide(h, Left(h).value);
    }
    if Settled(h) {
      var row :| AllDecide(h, row);
      var g := DeciderLeft(h, h);
      forall p | multiset(p) == multiset(h) ensures Left(p) == Left(h) {
        var g' := DeciderLeft(h, p);
      }
    }
  }

  // ---- Without ties ----

  ghost predicate DistinctStamps(h: seq<Arrival>) {
    forall i, j :: 0 <= i < j < |h| ==> ArrivalStamp(h[i]) != ArrivalStamp(h[j])
  }

  ghost predicate Greatest(h: seq<Arrival>, a: Arrival) {
    a in h && forall b :: b in h && b != a ==> StampLess(ArrivalStamp(b), ArrivalStamp(a))
  }

  lemma {:induction false} GreatestExists(h: seq<Arrival>) returns (a: Arrival)
    requires h != [] && DistinctStamps(h)
    ensures Greatest(h, a)
    decreases |h|
  {
    var n := |h| - 1;
    if n == 0 {
      a := h[0];
    } else {
      a := GreatestExists(h[..n]);
      assert h == h[..n] + [h[n]];
      var i :| 0 <= i < n && h[..n][i] == a;
      assert ArrivalStamp(h[i]) != ArrivalStamp(h[n]);
      if StampLess(ArrivalStamp(a), ArrivalStamp(h[n])) {
        a := h[n];
      }
    }
  }

  /** The single greatest arrival settles the history if it is a tombstone or if nothing is. */
  lemma GreatestSettles(h: seq<Arrival>, a: Arrival)
    requires Greatest(h, a) && (Tomb(a) || forall b :: b in h ==> !Tomb(b))
    ensures Settled(h) && AllDecide(h, WrittenRow(a.item, a.gateway, 0))
  {
    assert OnSide(h, a);
    assert forall g :: Top(h, g) ==> g == a;
    assert AllDecide(h, WrittenRow(a.item, a.gateway, 0));
    assert Tomb(a) ==> forall f :: f in h && !Tomb(f) ==> Buries(h, f, a);
  }

  /** With distinct stamps: if and only if there is no tombstone or the greatest stamp is a tombstone's. */
  lemma DistinctOrderIndependenceIff(h: seq<Arrival>)
    requires h != [] && RoadLike(h) && DistinctStamps(h)
    ensures OrderIndependent(h) <==> (forall b :: b in h ==> !Tomb(b)) || exists a :: Greatest(h, a) && Tomb(a)
  {
    OrderIndependenceIff(h);
    var a := GreatestExists(h);
    if Tomb(a) || forall b :: b in h ==> !Tomb(b) {
      GreatestSettles(h, a);
    } else {
      assert forall c :: Greatest(h, c) ==> c == a;
      assert forall t :: t in h && Tomb(t) ==> !Buries(h, a, t);
    }
  }

  // ---- On the server ----

  /** The same for the server: what any disciplined run from scratch holds for a road or supply key. */
  lemma RunOutcome(s: Settings, events: seq<Event>, key: Key)
    requires RunDisciplined(s, EMPTY, events)
    requires var h := Only(RunArrivals(s, EMPTY, events), key); h != [] && RoadLike(h)
    ensures var h := Only(RunArrivals(s, EMPTY, events), key);
            exists k: nat :: Winner(h, k) &&
              Project(Run(s, EMPTY, events).db.reports, key)
              == Some(Cell(h[0].item.id, WrittenRow(h[k].item, h[k].gateway, 0)))
  {
    Reachable(s, events);
    EmptyInv(s);
    PerKeyRefinement(s, EMPTY, events, key);
    var k := OutcomeExists(Only(RunArrivals(s, EMPTY, events), key));
  }

  /**
   Two disciplined runs whose arrivals on a key are permutations of one another, in any batches and
   among any other traffic, leave the same columns for it when the order cannot matter.
   */
  lemma RunOrderIrrelevant(s: Settings, events: seq<Event>, events': seq<Event>, key: Key)
    requires RunDisciplined(s, EMPTY, events) && RunDisciplined(s, EMPTY, events')
    requires var h := Only(RunArrivals(s, EMPTY, events), key);
             && multiset(Only(RunArrivals(s, EMPTY, events'), key)) == multiset(h)
             && h != [] && RoadLike(h) && Settled(h)
    ensures var cell := Project(Run(s, EMPTY, events).db.reports, key);
            var cell' := Project(Run(s, EMPTY, events').db.reports, key);
            && cell.Some? && cell'.Some? && cell.value.row == cell'.value.row
            && AllDecide(Only(RunArrivals(s, EMPTY, events), key), cell.value.row)
  {
    EmptyInv(s);
    PerKeyRefinement(s, EMPTY, events, key);
    PerKeyRefinement(s, EMPTY, events', key);
    var h, p := Only(RunArrivals(s, EMPTY, events), key), Only(RunArrivals(s, EMPTY, events'), key);
    OrderIndependenceIff(h);
    var g := DeciderLeft(h, h);
    assert Left(p) == Left(h);
  }

  // ---- Any history of one segment, sent to an empty server ----

  /** Each arrival sent as a batch of its own. */
  function SendAll(h: seq<Arrival>, batch: nat, now: Time): seq<Event> {
    if h == [] then []
    else
      var body := Body(h[0].gateway, batch, None, [h[0].item]);
      [Push(body, h[0].gateway, batch, now, None)] + SendAll(h[1..], batch + 1, now)
  }

  /** Items of one road or supply segment that pass validation. */
  ghost predicate OneSegment(s: Settings, h: seq<Arrival>, now: Time, key: Key) {
    key.Segment? && forall a :: a in h ==> KeyOf(a.item) == key && TimestampsOk(a.item, now, s.maxFutureSkew)
  }

  lemma {:induction false} SentAll(s: Settings, seen: set<(Id, Id)>, h: seq<Arrival>, batch: nat, now: Time)
    requires s.maxItems >= 1 && !s.requireAuth
    requires forall a :: a in h ==> TimestampsOk(a.item, now, s.maxFutureSkew)
    requires forall x :: x in seen ==> x.1 < batch
    ensures SentArrivals(s, {}, seen, SendAll(h, batch, now)) == h
    ensures Faultless(SendAll(h, batch, now))
    decreases |h|
  {
    if h != [] {
      var a := h[0];
      SentAll(s, seen + {(a.gateway, batch)}, h[1..], batch + 1, now);
      assert FirstTooFar([a.item], now, s.maxFutureSkew).None?;
      assert Arrivals(a.gateway, [a.item]) == [a];
      assert h == [a] + h[1..];
    }
  }

  lemma {:induction false} OnlyAll(h: seq<Arrival>, key: Key)
    requires forall a :: a in h ==> KeyOf(a.item) == key
    ensures Only(h, key) == h
    decreases |h|
  {
    if h != [] {
      OnlyAll(h[1..], key);
      assert h == [h[0]] + h[1..];
    }
  }

  /** The columns an empty server holds for the segment after the history was sent. */
  ghost function ServerLeft(s: Settings, h: seq<Arrival>, now: Time, key: Key): Option<Row> {
    var cell := Project(Run(s, EMPTY, SendAll(h, 1, now)).db.reports, key);
    if cell.None? then None else Some(cell.value.row)
  }

  /** Every history of a segment can be sent to the server, which then holds what the history amounts to. */
  lemma HistoryOnServer(s: Settings, h: seq<Arrival>, now: Time, key: Key)
    requires s.maxItems >= 1 && !s.requireAuth && OneSegment(s, h, now, key)
    ensures Project(Run(s, EMPTY, SendAll(h, 1, now)).db.reports, key) == Fold(None, h)
  {
    var events := SendAll(h, 1, now);
    var use := (id: Id) => Use(key.kind, key);
    EmptyInv(s);
    SentAll(s, {}, h, 1, now);
    assert Logged(EMPTY.db.logs) == {};
    SentIsMerged(s, EMPTY, {}, events, use);
    PerKeyRefinement(s, EMPTY, events, key);
    OnlyAll(h, key);
  }

  /** On the server, the order in which a history is sent cannot matter exactly when it is settled. */
  lemma ServerOrderIndependenceIff(s: Settings, h: seq<Arrival>, now: Time, key: Key)
    requires s.maxItems >= 1 && !s.requireAuth && OneSegment(s, h, now, key) && h != []
    ensures (forall p :: multiset(p) == multiset(h) ==> ServerLeft(s, p, now, key) == ServerLeft(s, h, now, key))
            <==> Settled(h)
  {
    forall p | multiset(p) == multiset(h) ensures ServerLeft(s, p, now, key) == Left(p) {
      SameElements(h, p);
      HistoryOnServer(s, p, now, key);
    }
    assert RoadLike(h) by {
      assert forall i :: 0 <= i < |h| ==> h[i] in h;
    }
    OrderIndependenceIff(h);
    if Settled(h) {
      assert forall p :: multiset(p) == multiset(h) ==> Left(p) == Left(h);
    } else {
      var p :| multiset(p) == multiset(h) && Left(p) != Left(h);
      assert ServerLeft(s, p, now, key) != ServerLeft(s, h, now, key);
    }
  }

  // ---- Ties ----

  /**
   The id tie-break does not make ties stable: an update keeps the row's first id, so of two arrivals
   with one stamp, both with ids above that of a row left by an earlier arrival, the later one wins.
   */
  lemma TieBreakUnstable(a: Arrival, b: Arrival, c: Arrival)
    requires RoadLike([a, b, c]) && Tomb(b) == Tomb(c) && (Tomb(a) ==> Tomb(b))
    requires !StampLess(ArrivalStamp(b), ArrivalStamp(a)) && ArrivalStamp(b) == ArrivalStamp(c)
    requires a.item.id < b.item.id && a.item.id < c.item.id
    requires WrittenRow(b.item, b.gateway, 0) != WrittenRow(c.item, c.gateway, 0)
    ensures Left([a, b, c]) == Some(WrittenRow(c.item, c.gateway, 0))
    ensures Left([a, c, b]) == Some(WrittenRow(b.item, b.gateway, 0))
    ensures Left([a, b, c]) != Left([a, c, b]) && !OrderIndependent([a, b, c])
  {
    assert [a, b, c][0] == a && [a, b, c][1] == b && [a, b, c][2] == c;
    LastOfTie(a, b, c);
    LastOfTie(a, c, b);
    assert multiset([a, c, b]) == multiset([a, b, c]);
  }

  lemma LastOfTie(a: Arrival, b: Arrival, c: Arrival)
    requires !a.item.kind.Sos? && !b.item.kind.Sos? && !c.item.kind.Sos?
    requires Tomb(b) == Tomb(c) && (Tomb(a) ==> Tomb(b))
    requires !StampLess(ArrivalStamp(b), ArrivalStamp(a)) && ArrivalStamp(b) == ArrivalStamp(c)
    requires a.item.id < b.item.id && a.item.id < c.item.id
    ensures Left([a, b, c]) == Some(WrittenRow(c.item, c.gateway, 0))
  {
    var h := [a, b, c];
    assert Tomb(b) ==> Establishes(h, 1);
    assert Winner(h, 2);
    ExactOutcome(h);
  }

  /**
   The same on the server: one batch leaves a row, two more carry tied updates with ids above the
   row's. Sent in the two orders to an empty server, they leave the segment with different columns.
   */
  lemma TieBreakUnstableOnServer(s: Settings, a: Arrival, b: Arrival, c: Arrival, now: Time, key: Key)
    requires s.maxItems >= 1 && !s.requireAuth && OneSegment(s, [a, b, c], now, key)
    requires Tomb(b) == Tomb(c) && (Tomb(a) ==> Tomb(b))
    requires !StampLess(ArrivalStamp(b), ArrivalStamp(a)) && ArrivalStamp(b) == ArrivalStamp(c)
    requires a.item.id < b.item.id && a.item.id < c.item.id
    requires WrittenRow(b.item, b.gateway, 0) != WrittenRow(c.item, c.gateway, 0)
    ensures ServerLeft(s, [a, b, c], now, key) == Some(WrittenRow(c.item, c.gateway, 0))
    ensures ServerLeft(s, [a, c, b], now, key) == Some(WrittenRow(b.item, b.gateway, 0))
    ensures ServerLeft(s, [a, b, c], now, key) != ServerLeft(s, [a, c, b], now, key)
  {
    assert a in [a, b, c] && b in [a, b, c] && c in [a, b, c];
    HistoryOnServer(s, [a, b, c], now, key);
    HistoryOnServer(s, [a, c, b], now, key);
    LastOfTie(a, b, c);
    LastOfTie(a, c, b);
  }
}
