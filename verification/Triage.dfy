/** Priority scoring of reports, the tasks that cache scores in rows, and the queue they wait in. */
module Triage {
  import opened Options
  import opened Reports

  // ---- The score ----

  /** The Kelvin sign is the one other character that lower-cases to a letter of the words looked for. */
  function LowerChar(c: char): char {
    if 'A' <= c <= 'Z' then c - 'A' + 'a' else if c == '\U{212A}' then 'k' else c
  }

  function Lower(s: string): (r: string)
    ensures |r| == |s| && forall i :: 0 <= i < |s| ==> r[i] == LowerChar(s[i])
  {
    seq(|s|, i requires 0 <= i < |s| => LowerChar(s[i]))
  }

  predicate WordAt(s: string, i: nat, word: string) {
    i + |word| <= |s| && s[i..i + |word|] == word
  }

  predicate Contains(s: string, word: string) {
    exists i :: 0 <= i <= |s| && WordAt(s, i, word)
  }

  function Min(a: real, b: real): real {
    if a <= b then a else b
  }

  function Max(a: real, b: real): real {
    if a >= b then a else b
  }

  predicate Urgent(kind: Kind, status: string) {
    var st := Lower(status);
    match kind
    case Sos => true
    case Road => Contains(st, "blocked") || Contains(st, "damaged") || Contains(st, "flood")
    case Supply => Contains(st, "critical") || Contains(st, "shortage")
  }

  function BaseScore(kind: Kind, status: string): real {
    if !Urgent(kind, status) then 15.0
    else match kind
      case Sos => 100.0
      case Road => 75.0
      case Supply => 70.0
  }

  function Bonus(payload: Payload): real {
    (if payload.priorityHigh then 20.0 else 0.0) + (if payload.casualties || payload.injured then 15.0 else 0.0)
  }

  function PriorityScore(kind: Kind, status: string, payload: Payload): (score: real)
    ensures 15.0 <= score <= 100.0
    ensures kind.Sos? ==> score == 100.0
    ensures !kind.Sos? && !Urgent(kind, status) ==> score == 15.0 + Bonus(payload)
    ensures kind.Road? && Urgent(kind, status) ==> score == Min(100.0, 75.0 + Bonus(payload))
    ensures kind.Supply? && Urgent(kind, status) ==> score == Min(100.0, 70.0 + Bonus(payload))
    ensures score == 100.0 <==>
            kind.Sos? || (Urgent(kind, status) && payload.priorityHigh && (payload.casualties || payload.injured))
  {
    var base := BaseScore(kind, status);
    var high := if payload.priorityHigh then Min(100.0, base + 20.0) else base;
    var hurt := if payload.casualties || payload.injured then Min(100.0, high + 15.0) else high;
    Min(100.0, Max(0.0, hurt))
  }

  /** Clamping after each bonus is the same as adding the bonuses and clamping once. */
  lemma ScoreClosedForm(kind: Kind, status: string, payload: Payload)
    ensures PriorityScore(kind, status, payload)
            == Min(100.0, BaseScore(kind, status) + Bonus(payload))
  {
  }

  /** `c` is the small letter `l` or lower-cases to it. */
  predicate AnyCase(c: char, l: char) {
    c == l || ('a' <= l <= 'z' && c == l - 'a' + 'A') || (l == 'k' && c == '\U{212A}')
  }

  /** `w` is the word in any mixture of cases. */
  predicate Spells(w: string, word: string) {
    |w| == |word| && forall i :: 0 <= i < |w| ==> AnyCase(w[i], word[i])
  }

  /** Some stretch of the status is the word. */
  ghost predicate Mentions(status: string, word: string) {
    exists a: string, w: string, b: string :: status == a + w + b && Spells(w, word)
  }

  lemma LowerWordAt(s: string, i: nat, word: string)
    requires i + |word| <= |s| && forall k :: 0 <= k < |word| ==> 'a' <= word[k] <= 'z'
    ensures WordAt(Lower(s), i, word) <==> Spells(s[i..i + |word|], word)
  {
    var w := s[i..i + |word|];
    assert forall k :: 0 <= k < |word| ==> Lower(s)[i..i + |word|][k] == LowerChar(w[k]);
    assert forall k :: 0 <= k < |word| ==> (LowerChar(w[k]) == word[k] <==> AnyCase(w[k], word[k]));
    if Spells(w, word) {
      assert Lower(s)[i..i + |word|] == word;
    }
  }

  lemma MentionsIff(s: string, word: string)
    requires forall k :: 0 <= k < |word| ==> 'a' <= word[k] <= 'z'
    ensures Contains(Lower(s), word) <==> Mentions(s, word)
  {
    if Contains(Lower(s), word) {
      var i :| 0 <= i <= |Lower(s)| && WordAt(Lower(s), i, word);
      LowerWordAt(s, i, word);
      assert s == s[..i] + s[i..i + |word|] + s[i + |word|..];
    }
    if a: string, w: string, b: string :| s == a + w + b && Spells(w, word) {
      assert s[|a|..|a| + |word|] == w;
      LowerWordAt(s, |a|, word);
    }
  }

  /**
   The score of every report, in full: 100 for SOS; 75 for a road whose status mentions, in any case,
   that it is blocked, damaged or flooded, 70 for a critical or short supply, 15 otherwise; 20 more for
   high priority, 15 more for casualties or injured; never above 100.
   */
  lemma ScoreTable(kind: Kind, status: string, payload: Payload)
    ensures var base: real :=
              match kind
              case Sos => 100.0
              case Road =>
                if Mentions(status, "blocked") || Mentions(status, "damaged") || Mentions(status, "flood") then 75.0
                else 15.0
              case Supply => if Mentions(status, "critical") || Mentions(status, "shortage") then 70.0 else 15.0;
            var sum := base + (if payload.priorityHigh then 20.0 else 0.0)
                            + (if payload.casualties then 15.0 else if payload.injured then 15.0 else 0.0);
            PriorityScore(kind, status, payload) == if sum > 100.0 then 100.0 else sum
  {
    MentionsIff(status, "blocked");
    MentionsIff(status, "damaged");
    MentionsIff(status, "flood");
    MentionsIff(status, "critical");
    MentionsIff(status, "shortage");
  }

  // ---- The task ----

  function Scored(r: Row): Row {
    r.(triage := Completed, score := Some(PriorityScore(r.kind, r.status, r.payload)))
  }

  /** One id of a task: a missing row is skipped. */
  function Rescore(t: Table, id: Id): Table {
    if id in t then t[id := Scored(t[id])] else t
  }

  function RunTriage(t: Table, ids: seq<Id>): Table {
    if ids == [] then t else RunTriage(Rescore(t, ids[0]), ids[1..])
  }

  /** A batch that touched nothing enqueues nothing, and neither does one with triage disabled. */
  function Enqueue(queue: seq<seq<Id>>, ids: seq<Id>, enabled: bool): seq<seq<Id>> {
    if ids == [] || !enabled then queue else queue + [ids]
  }

  /** A task scores exactly the rows it names and changes nothing a push wrote. */
  lemma {:induction false} RunTriageSpec(t: Table, ids: seq<Id>)
    ensures RunTriage(t, ids).Keys == t.Keys
    ensures forall id :: id in t ==> RunTriage(t, ids)[id] == if id in ids then Scored(t[id]) else t[id]
  {
    if ids != [] {
      RunTriageSpec(Rescore(t, ids[0]), ids[1..]);
      assert ids == [ids[0]] + ids[1..];
      assert forall x :: x in ids <==> x == ids[0] || x in ids[1..];
    }
  }

  // ---- Coherence of the cached scores ----

  ghost predicate CoherentRow(r: Row) {
    match r.triage
    case Pending => r.score == None
    case Completed => r.score == Some(PriorityScore(r.kind, r.status, r.payload))
  }

  ghost predicate Coherent(t: Table) {
    forall id :: id in t ==> CoherentRow(t[id])
  }

  ghost predicate InTask(queue: seq<seq<Id>>, id: Id) {
    exists k :: 0 <= k < |queue| && id in queue[k]
  }

  /** Every row still waiting for its score is named by some task that is still to run. */
  ghost predicate PendingQueued(t: Table, queue: seq<seq<Id>>) {
    forall id :: id in t && t[id].triage.Pending? ==> InTask(queue, id)
  }

  function RemoveTask(queue: seq<seq<Id>>, k: nat): seq<seq<Id>>
    requires k < |queue|
  {
    queue[..k] + queue[k + 1..]
  }

  lemma TaskKeepsQueued(t: Table, queue: seq<seq<Id>>, k: nat)
    requires k < |queue| && Coherent(t)
    ensures Coherent(RunTriage(t, queue[k]))
    ensures PendingQueued(t, queue) ==> PendingQueued(RunTriage(t, queue[k]), RemoveTask(queue, k))
  {
    var t', rest := RunTriage(t, queue[k]), RemoveTask(queue, k);
    RunTriageSpec(t, queue[k]);
    if PendingQueued(t, queue) {
      forall id | id in t' && t'[id].triage.Pending? ensures InTask(rest, id) {
        var j :| 0 <= j < |queue| && id in queue[j];
        assert j != k;
        assert rest[if j < k then j else j - 1] == queue[j];
      }
    }
  }

  /** Running tasks until none is left. */
  function Drain(t: Table, queue: seq<seq<Id>>): Table
    decreases |queue|
  {
    if queue == [] then t else Drain(RunTriage(t, queue[0]), queue[1..])
  }

  /** Draining the queue leaves no row pending, every score right, and what pushes wrote as it was. */
  lemma {:induction false} DrainCompletes(t: Table, queue: seq<seq<Id>>)
    requires Coherent(t) && PendingQueued(t, queue)
    ensures var t' := Drain(t, queue);
            && t'.Keys == t.Keys
            && forall id :: id in t ==> t'[id] == Scored(t[id])
    decreases |queue|
  {
    if queue == [] {
      forall id | id in t ensures t[id] == Scored(t[id]) {
        assert !InTask(queue, id);
      }
    } else {
      TaskKeepsQueued(t, queue, 0);
      assert RemoveTask(queue, 0) == queue[1..];
      RunTriageSpec(t, queue[0]);
      DrainCompletes(RunTriage(t, queue[0]), queue[1..]);
    }
  }
}
