/**
 * The task list: a stable sort of a copy of the tasks by a fixed status
 * rank, and one card per sorted task with a stagger delay derived from
 * its position.
 */
module TaskList {
  import opened Tasks

  /** `in_progress` first, then `pending`, then `completed`. */
  function Rank(s: Status): nat {
    match s
    case InProgress => 0
    case Pending => 1
    case Completed => 2
  }

  /**
   * Places `t` before the first task whose rank is at least its own, so
   * that `t` stays ahead of the tasks of equal rank that followed it.
   */
  function Insert(t: Task, sorted: seq<Task>): (r: seq<Task>)
    ensures |r| == |sorted| + 1
  {
    if sorted == [] || Rank(t.status) <= Rank(sorted[0].status) then [t] + sorted
    else [sorted[0]] + Insert(t, sorted[1..])
  }

  /** `[...tasks].sort((a, b) => rank(a) - rank(b))`, a stable sort. */
  function SortForDisplay(tasks: seq<Task>): (r: seq<Task>)
    ensures |r| == |tasks|
  {
    if tasks == [] then [] else Insert(tasks[0], SortForDisplay(tasks[1..]))
  }

  lemma {:induction false} InsertPermutes(t: Task, sorted: seq<Task>)
    ensures multiset(Insert(t, sorted)) == multiset(sorted) + multiset{t}
  {
    if sorted != [] && Rank(t.status) > Rank(sorted[0].status) {
      InsertPermutes(t, sorted[1..]);
      assert sorted == [sorted[0]] + sorted[1..];
    }
  }

  /** The displayed order holds each task exactly as often as the input. */
  lemma {:induction false} SortForDisplayPermutes(tasks: seq<Task>)
    ensures multiset(SortForDisplay(tasks)) == multiset(tasks)
  {
    if tasks != [] {
      SortForDisplayPermutes(tasks[1..]);
      InsertPermutes(tasks[0], SortForDisplay(tasks[1..]));
      assert tasks == [tasks[0]] + tasks[1..];
    }
  }

  // ---------------------------------------------------------------------
  // The reference definition: one bucket per status, in rank order

  /** The tasks with status `st`, in their input order. */
  function WithStatus(tasks: seq<Task>, st: Status): seq<Task>
  {
    if tasks == [] then []
    else if tasks[0].status == st then [tasks[0]] + WithStatus(tasks[1..], st)
    else WithStatus(tasks[1..], st)
  }

  function Buckets(tasks: seq<Task>): seq<Task>
  {
    WithStatus(tasks, InProgress) + WithStatus(tasks, Pending) + WithStatus(tasks, Completed)
  }

  ghost predicate RankSorted(s: seq<Task>) {
    forall i, j :: 0 <= i < j < |s| ==> Rank(s[i].status) <= Rank(s[j].status)
  }

  /** Every status keeps its relative order from `tasks` in `r`. */
  ghost predicate Stable(tasks: seq<Task>, r: seq<Task>) {
    forall st :: WithStatus(r, st) == WithStatus(tasks, st)
  }

  // ---------------------------------------------------------------------
  // Lemmas about the buckets

  lemma {:induction false} WithStatusAppend(a: seq<Task>, b: seq<Task>, st: Status)
    ensures WithStatus(a + b, st) == WithStatus(a, st) + WithStatus(b, st)
  {
    if a != [] {
      assert (a + b)[0] == a[0];
      assert (a + b)[1..] == a[1..] + b;
      WithStatusAppend(a[1..], b, st);
      if a[0].status == st {
        calc {
          WithStatus(a + b, st);
          [a[0]] + WithStatus(a[1..] + b, st);
          [a[0]] + (WithStatus(a[1..], st) + WithStatus(b, st));
          ([a[0]] + WithStatus(a[1..], st)) + WithStatus(b, st);
        }
      }
    } else {
      assert a + b == b;
    }
  }

  lemma {:induction false} WithStatusHasStatus(tasks: seq<Task>, st: Status)
    ensures forall i :: 0 <= i < |WithStatus(tasks, st)| ==> WithStatus(tasks, st)[i].status == st
  {
    if tasks != [] {
      WithStatusHasStatus(tasks[1..], st);
    }
  }

  lemma {:induction false} WithStatusOfUniform(s: seq<Task>, u: Status, st: Status)
    requires forall i :: 0 <= i < |s| ==> s[i].status == u
    ensures WithStatus(s, st) == if u == st then s else []
  {
    if s != [] {
      WithStatusOfUniform(s[1..], u, st);
    }
  }

  /** Inserting past a prefix of lower rank lands right after that prefix. */
  lemma {:induction false} InsertAfterLower(t: Task, x: seq<Task>, y: seq<Task>)
    requires forall i :: 0 <= i < |x| ==> Rank(x[i].status) < Rank(t.status)
    requires y == [] || Rank(t.status) <= Rank(y[0].status)
    ensures Insert(t, x + y) == x + [t] + y
  {
    if x != [] {
      assert (x + y)[0] == x[0];
      assert (x + y)[1..] == x[1..] + y;
      InsertAfterLower(t, x[1..], y);
    }
  }

  lemma {:induction false} WithStatusCons(t: Task, rest: seq<Task>, st: Status)
    ensures WithStatus([t] + rest, st) == (if t.status == st then [t] else []) + WithStatus(rest, st)
  {
    assert ([t] + rest)[0] == t && ([t] + rest)[1..] == rest;
  }

  lemma {:induction false} InsertIntoBuckets(t: Task, rest: seq<Task>)
    ensures Insert(t, Buckets(rest)) == Buckets([t] + rest)
  {
    var a, p, c := WithStatus(rest, InProgress), WithStatus(rest, Pending), WithStatus(rest, Completed);
    WithStatusCons(t, rest, InProgress);
    WithStatusCons(t, rest, Pending);
    WithStatusCons(t, rest, Completed);
    WithStatusHasStatus(rest, InProgress);
    WithStatusHasStatus(rest, Pending);
    WithStatusHasStatus(rest, Completed);
    if t.status == InProgress {
      InsertFirstBucket(t, a, p, c);
    } else if t.status == Pending {
      InsertSecondBucket(t, a, p, c);
    } else {
      InsertThirdBucket(t, a, p, c);
    }
  }

  lemma {:induction false} InsertFirstBucket(t: Task, a: seq<Task>, p: seq<Task>, c: seq<Task>)
    requires t.status == InProgress
    ensures Insert(t, a + p + c) == [t] + a + p + c
  {
  }

  lemma {:induction false} InsertSecondBucket(t: Task, a: seq<Task>, p: seq<Task>, c: seq<Task>)
    requires t.status == Pending
    requires forall i :: 0 <= i < |a| ==> a[i].status == InProgress
    requires forall i :: 0 <= i < |p| ==> p[i].status == Pending
    requires forall i :: 0 <= i < |c| ==> c[i].status == Completed
    ensures Insert(t, a + p + c) == a + [t] + p + c
  {
    var pc := p + c;
    assert forall i :: 0 <= i < |a| ==> Rank(a[i].status) < Rank(t.status);
    if p != [] {
      assert pc[0] == p[0];
    } else {
      assert pc == c;
    }
    assert pc == [] || Rank(t.status) <= Rank(pc[0].status);
    InsertAfterLower(t, a, pc);
    assert Insert(t, a + pc) == a + [t] + pc;
    assert a + p + c == a + pc;
    assert a + [t] + p + c == a + [t] + pc;
    assert Insert(t, a + p + c) == a + [t] + p + c;
  }

  lemma {:induction false} InsertThirdBucket(t: Task, a: seq<Task>, p: seq<Task>, c: seq<Task>)
    requires t.status == Completed
    requires forall i :: 0 <= i < |a| ==> a[i].status == InProgress
    requires forall i :: 0 <= i < |p| ==> p[i].status == Pending
    requires forall i :: 0 <= i < |c| ==> c[i].status == Completed
    ensures Insert(t, a + p + c) == a + p + [t] + c
  {
    InsertAfterLower(t, a + p, c);
  }

  /** The insertion sort agrees with the reference definition. */
  lemma {:induction false} SortForDisplayIsBuckets(tasks: seq<Task>)
    ensures SortForDisplay(tasks) == Buckets(tasks)
  {
    if tasks != [] {
      SortForDisplayIsBuckets(tasks[1..]);
      InsertIntoBuckets(tasks[0], tasks[1..]);
      assert [tasks[0]] + tasks[1..] == tasks;
    }
  }

  lemma RankSortedTail(r: seq<Task>)
    requires RankSorted(r) && r != []
    ensures RankSorted(r[1..])
    ensures forall k :: 0 <= k < |r[1..]| ==> Rank(r[0].status) <= Rank(r[1..][k].status)
  {
    var rest := r[1..];
    forall i, j | 0 <= i < j < |rest| ensures Rank(rest[i].status) <= Rank(rest[j].status) {
      assert rest[i] == r[i + 1] && rest[j] == r[j + 1];
    }
    forall k | 0 <= k < |rest| ensures Rank(r[0].status) <= Rank(rest[k].status) {
      assert rest[k] == r[k + 1];
    }
  }

  /** Three runs of one status each, in rank order, are their own buckets. */
  lemma UniformRunsAreBuckets(a: seq<Task>, p: seq<Task>, c: seq<Task>)
    requires forall i :: 0 <= i < |a| ==> a[i].status == InProgress
    requires forall i :: 0 <= i < |p| ==> p[i].status == Pending
    requires forall i :: 0 <= i < |c| ==> c[i].status == Completed
    ensures Buckets(a + p + c) == a + p + c
  {
    forall st ensures WithStatus(a + p + c, st) == (if st == InProgress then a else []) + (if st == Pending then p else []) + (if st == Completed then c else []) {
      WithStatusAppend(a + p, c, st);
      WithStatusAppend(a, p, st);
      WithStatusOfUniform(a, InProgress, st);
      WithStatusOfUniform(p, Pending, st);
      WithStatusOfUniform(c, Completed, st);
    }
  }

  /** A rank-sorted sequence is its own buckets. */
  lemma {:induction false} RankSortedIsBuckets(r: seq<Task>)
    requires RankSorted(r)
    ensures r == Buckets(r)
  {
    if r != [] {
      var x, rest := r[0], r[1..];
      RankSortedTail(r);
      RankSortedIsBuckets(rest);
      var a, p, c := WithStatus(rest, InProgress), WithStatus(rest, Pending), WithStatus(rest, Completed);
      WithStatusHasStatus(rest, InProgress);
      WithStatusHasStatus(rest, Pending);
      WithStatusHasStatus(rest, Completed);
      assert r == [x] + (a + p + c);
      if x.status == InProgress {
        UniformRunsAreBuckets([x] + a, p, c);
        assert r == ([x] + a) + p + c;
      } else if x.status == Pending {
        assert a == [];
        UniformRunsAreBuckets([], [x] + p, c);
        assert r == [] + ([x] + p) + c;
      } else {
        assert a == [] && p == [];
        UniformRunsAreBuckets([], [], [x] + c);
        assert r == [] + [] + ([x] + c);
      }
    }
  }

  // ---------------------------------------------------------------------
  // What the sort promises

  /**
   * The displayed order is a permutation of the input, ordered by rank,
   * and keeps the input order among tasks of the same status.
   */
  lemma SortForDisplaySpec(tasks: seq<Task>)
    ensures RankSorted(SortForDisplay(tasks))
    ensures Stable(tasks, SortForDisplay(tasks))
  {
    var a, p, c := WithStatus(tasks, InProgress), WithStatus(tasks, Pending), WithStatus(tasks, Completed);
    SortForDisplayIsBuckets(tasks);
    WithStatusHasStatus(tasks, InProgress);
    WithStatusHasStatus(tasks, Pending);
    WithStatusHasStatus(tasks, Completed);
    var r := a + p + c;
    forall i, j | 0 <= i < j < |r| ensures Rank(r[i].status) <= Rank(r[j].status) {
      assert r[i].status == if i < |a| then InProgress else if i < |a| + |p| then Pending else Completed;
      assert r[j].status == if j < |a| then InProgress else if j < |a| + |p| then Pending else Completed;
    }
    forall st ensures WithStatus(r, st) == WithStatus(tasks, st) {
      WithStatusAppend(a + p, c, st);
      WithStatusAppend(a, p, st);
      WithStatusOfUniform(a, InProgress, st);
      WithStatusOfUniform(p, Pending, st);
      WithStatusOfUniform(c, Completed, st);
    }
  }

  /**
   * Any rank-ordered sequence that keeps the input order within each
   * status is the displayed order: the result does not depend on which
   * stable sorting algorithm produced it.
   */
  lemma StableRankSortIsUnique(tasks: seq<Task>, r: seq<Task>)
    requires RankSorted(r) && Stable(tasks, r)
    ensures r == SortForDisplay(tasks)
  {
    RankSortedIsBuckets(r);
    SortForDisplayIsBuckets(tasks);
    assert WithStatus(r, InProgress) == WithStatus(tasks, InProgress);
    assert WithStatus(r, Pending) == WithStatus(tasks, Pending);
    assert WithStatus(r, Completed) == WithStatus(tasks, Completed);
  }

  /** Statuses completed, pending, in progress, pending are shown as c, b, d, a. */
  lemma SortExample(a: Task, b: Task, c: Task, d: Task)
    requires a.status == Completed && b.status == Pending && c.status == InProgress && d.status == Pending
    ensures SortForDisplay([a, b, c, d]) == [c, b, d, a]
  {
    var s1 := SortForDisplay([d]);
    assert [d][1..] == [];
    assert s1 == [d];
    var s2 := SortForDisplay([c, d]);
    assert [c, d][1..] == [d];
    assert s2 == Insert(c, [d]) == [c, d];
    var s3 := SortForDisplay([b, c, d]);
    assert [b, c, d][1..] == [c, d];
    assert [c, d][1..] == [d];
    assert Insert(b, [d]) == [b, d];
    assert s3 == Insert(b, [c, d]) == [c, b, d];
    assert [a, b, c, d][1..] == [b, c, d];
    assert [c, b, d][1..] == [b, d];
    assert [b, d][1..] == [d];
    assert Insert(a, [d]) == [d, a];
    assert Insert(a, [b, d]) == [b, d, a];
    assert Insert(a, [c, b, d]) == [c, b, d, a];
  }

  // ---------------------------------------------------------------------
  // Rendering

  /** A task card and the delay of its entry animation, in milliseconds. */
  datatype Card = Card(task: Task, delay: nat)

  datatype ListView = EmptyState | Grid(cards: seq<Card>)

  /**
   * The list shows the empty state exactly when there are no tasks, and
   * otherwise the card at position `i` of the sorted order with delay `50 * i`.
   */
  function RenderTaskList(tasks: seq<Task>): (v: ListView)
    ensures v.EmptyState? <==> tasks == []
    ensures v.Grid? ==> |v.cards| == |tasks|
    ensures v.Grid? ==> forall i :: 0 <= i < |v.cards| ==> v.cards[i].task == SortForDisplay(tasks)[i] && v.cards[i].delay == 50 * i
  {
    if |tasks| == 0 then EmptyState
    else
      var sorted := SortForDisplay(tasks);
      Grid(seq(|sorted|, i requires 0 <= i < |sorted| => Card(sorted[i], 50 * i)))
  }
}
