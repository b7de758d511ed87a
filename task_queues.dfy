/**
 * The four markdown task queues of task_manager.py (Backlog, In-Progress,
 * Blocked, Done) and the list operations on them: the priority sort behind
 * get_top_backlog_task and add_task, the partition and field updates of
 * move_task, and the headers written above each queue.
 *
 * The queue files are a map from file to text; a file missing from the map
 * does not exist. Every read of a file is parse_tasks on its text, with the
 * fresh ids and today's date it would draw supplied as a Draw.
 */
module TaskQueues {
  import opened Text
  import opened TaskFormat

  /** A task file: one of the four queues, or some other path. */
  datatype QueueFile = Backlog | InProgress | Blocked | Done | OtherFile(path: string)

  const Queues: set<QueueFile> := {Backlog, InProgress, Blocked, Done}

  /** A markdown title line, followed by a blank line and a description when there is one. */
  function TitledHeader(title: string, description: string): string
  {
    "# " + title + (if description == "" then "" else "\n\n" + description)
  }

  /** _get_header: the title and description written above each queue. */
  function Header(q: QueueFile): string
  {
    match q
    case Backlog =>
      TitledHeader("Dev Task Backlog",
        "Prioritized queue of " + "development tasks. " + "P0 = critical, " + "P3 = low priority.")
    case InProgress =>
      TitledHeader("Tasks In Progress", "Currently being worked " + "on by agents or manually.")
    case Blocked =>
      TitledHeader("Blocked Tasks", "Tasks waiting on external " + "input or dependencies.")
    case Done => TitledHeader("Completed Tasks", "Rolling log of finished work.")
    case OtherFile(_) => TitledHeader("Tasks", "")
  }

  /** A text without any '#' contains no heading line. */
  lemma {:induction false} NoHashNoHeading(s: string, i: nat, lineStart: bool)
    requires i <= |s|
    requires forall k :: i <= k < |s| ==> s[k] != '#'
    ensures NoHeadingBetween(s, i, |s|, lineStart)
    decreases |s| - i
  {
    if i < |s| {
      NoHashNoHeading(s, i + 1, s[i] == '\n');
    }
  }

  /** A one-level title over text without '#' keeps the tasks below it readable. */
  lemma TitledHeaderOk(title: string, description: string)
    requires '#' !in title && '#' !in description
    ensures HeaderOk(TitledHeader(title, description))
  {
    var rest := title + (if description == "" then "" else "\n\n" + description);
    var s := TitledHeader(title, description);
    assert s == "# " + rest;
    assert '#' !in rest;
    forall k | 1 <= k < |s| ensures s[k] != '#' {
      if k >= 2 {
        assert s[k] == rest[k - 2];
      }
    }
    NoHashNoHeading(s, 1, false);
  }

  lemma BacklogHeaderOk()
    ensures HeaderOk(Header(Backlog))
  {
    var a, b, c, d := "Prioritized queue of ", "development tasks. ", "P0 = critical, ", "P3 = low priority.";
    assert '#' !in a;
    assert '#' !in b;
    assert '#' !in c;
    assert '#' !in d;
    TitledHeaderOk("Dev Task Backlog", a + b + c + d);
  }

  lemma InProgressHeaderOk()
    ensures HeaderOk(Header(InProgress))
  {
    var a, b := "Currently being worked ", "on by agents or manually.";
    assert '#' !in a;
    assert '#' !in b;
    TitledHeaderOk("Tasks In Progress", a + b);
  }

  lemma BlockedHeaderOk()
    ensures HeaderOk(Header(Blocked))
  {
    var a, b := "Tasks waiting on external ", "input or dependencies.";
    assert '#' !in a;
    assert '#' !in b;
    TitledHeaderOk("Blocked Tasks", a + b);
  }

  /** Every header _get_header gives keeps the tasks below it readable. */
  lemma HeadersOk(q: QueueFile)
    ensures Header(q) != "" && HeaderOk(Header(q))
  {
    match q
    case Backlog => BacklogHeaderOk();
    case InProgress => InProgressHeaderOk();
    case Blocked => BlockedHeaderOk();
    case Done => TitledHeaderOk("Completed Tasks", "Rolling log of finished work.");
    case OtherFile(_) => TitledHeaderOk("Tasks", "");
  }

  // ---------------------------------------------------------------------
  // Reading a queue
  // ---------------------------------------------------------------------

  /** What one parse_tasks call draws: the uuid prefix for each block in turn and today's date. */
  datatype Draw = Draw(ids: nat -> string, today: string)

  function Content(files: map<QueueFile, string>, q: QueueFile): Option<string>
  {
    if q in files then Some(files[q]) else None
  }

  /** parse_tasks(q) on the current files. */
  function Read(files: map<QueueFile, string>, q: QueueFile, d: Draw): (ts: seq<Task>)
    ensures q !in files ==> ts == []
  {
    ParseSpec(Content(files, q), d.ids, d.today)
  }

  /** A queue written by write_tasks reads back as the tasks written, whatever is drawn. */
  lemma ReadWritten(files: map<QueueFile, string>, q: QueueFile, ts: seq<Task>, d: Draw)
    requires q in files && files[q] == WriteTasks(Header(q), ts)
    requires forall t :: t in ts ==> WellFormed(t)
    ensures Read(files, q, d) == ts
  {
    HeadersOk(q);
    ParseWriteRoundTrip(Header(q), ts, d.ids, d.today);
  }

  // ---------------------------------------------------------------------
  // Sorting by priority
  // ---------------------------------------------------------------------

  function Rank(p: Priority): (r: nat)
    ensures r <= 3
  {
    match p
    case P0 => 0
    case P1 => 1
    case P2 => 2
    case P3 => 3
  }

  /** The sort key is the priority string; on "P0".."P3" string order is rank order. */
  lemma PriorityStringOrder(p: Priority, q: Priority)
    ensures LexLess(PriorityName(p), PriorityName(q)) <==> Rank(p) < Rank(q)
    ensures PriorityName(p) == PriorityName(q) <==> p == q
  {
    var a, b := PriorityName(p), PriorityName(q);
    assert a[1..][1..] == [] && b[1..][1..] == [];
  }

  /** The tasks of priority p, in their original order. */
  function WithPriority(ts: seq<Task>, p: Priority): (r: seq<Task>)
    ensures |r| <= |ts|
  {
    if ts == [] then [] else (if ts[0].priority == p then [ts[0]] else []) + WithPriority(ts[1..], p)
  }

  /** `tasks.sort(key=lambda t: t.priority)`: Python's sort is stable, so each priority keeps its order. */
  function SortByPriority(ts: seq<Task>): seq<Task>
  {
    WithPriority(ts, P0) + WithPriority(ts, P1) + WithPriority(ts, P2) + WithPriority(ts, P3)
  }

  predicate Sorted(ts: seq<Task>)
  {
    forall i, j :: 0 <= i < j < |ts| ==> Rank(ts[i].priority) <= Rank(ts[j].priority)
  }

  lemma {:induction false} WithPriorityOnly(ts: seq<Task>, p: Priority)
    ensures forall t :: t in WithPriority(ts, p) ==> t.priority == p && t in ts
  {
    if ts != [] {
      WithPriorityOnly(ts[1..], p);
    }
  }

  lemma {:induction false} WithPriorityAll(ts: seq<Task>, p: Priority)
    ensures forall t :: t in ts && t.priority == p ==> t in WithPriority(ts, p)
  {
    if ts != [] {
      WithPriorityAll(ts[1..], p);
      assert forall t :: t in ts ==> t == ts[0] || t in ts[1..];
    }
  }

  lemma {:induction false} WithPriorityAppend(a: seq<Task>, b: seq<Task>, p: Priority)
    ensures WithPriority(a + b, p) == WithPriority(a, p) + WithPriority(b, p)
  {
    if a != [] {
      var h := if a[0].priority == p then [a[0]] else [];
      assert (a + b)[0] == a[0];
      assert (a + b)[1..] == a[1..] + b;
      assert WithPriority(a + b, p) == h + WithPriority(a[1..] + b, p);
      WithPriorityAppend(a[1..], b, p);
      AppendAssoc(h, WithPriority(a[1..], p), WithPriority(b, p));
    } else {
      assert a + b == b;
    }
  }

  lemma {:induction false} WithPriorityNone(ts: seq<Task>, p: Priority)
    requires forall t :: t in ts ==> t.priority != p
    ensures WithPriority(ts, p) == []
  {
    if ts != [] {
      WithPriorityNone(ts[1..], p);
    }
  }

  /** No task of a priority more urgent than all of `ts`. */
  lemma {:induction false} WithPriorityBelow(ts: seq<Task>, p: Priority, m: nat)
    requires forall t :: t in ts ==> m <= Rank(t.priority)
    requires Rank(p) < m
    ensures WithPriority(ts, p) == []
  {
    if ts != [] {
      WithPriorityBelow(ts[1..], p, m);
    }
  }

  lemma {:induction false} WithPriorityUniform(ts: seq<Task>, p: Priority)
    requires forall t :: t in ts ==> t.priority == p
    ensures WithPriority(ts, p) == ts
  {
    if ts != [] {
      WithPriorityUniform(ts[1..], p);
    }
  }

  lemma SortedAppend(a: seq<Task>, b: seq<Task>, r: nat)
    requires Sorted(a) && Sorted(b)
    requires forall t :: t in a ==> Rank(t.priority) <= r
    requires forall t :: t in b ==> Rank(t.priority) >= r
    ensures Sorted(a + b)
  {
    var s := a + b;
    forall i, j | 0 <= i < j < |s| ensures Rank(s[i].priority) <= Rank(s[j].priority) {
      if j < |a| {
        assert s[i] == a[i] && s[j] == a[j];
      } else if i >= |a| {
        assert s[i] == b[i - |a|] && s[j] == b[j - |a|];
      } else {
        assert s[i] == a[i] && s[j] == b[j - |a|];
        assert s[i] in a && s[j] in b;
      }
    }
  }

  lemma UniformSorted(ts: seq<Task>, p: Priority)
    requires forall t :: t in ts ==> t.priority == p
    ensures Sorted(ts)
  {
    forall i, j | 0 <= i < j < |ts| ensures Rank(ts[i].priority) <= Rank(ts[j].priority) {
      assert ts[i] in ts && ts[j] in ts;
    }
  }

  /** The sorted list is ordered by priority. */
  lemma SortIsSorted(ts: seq<Task>)
    ensures Sorted(SortByPriority(ts))
  {
    var f0, f1, f2, f3 := WithPriority(ts, P0), WithPriority(ts, P1), WithPriority(ts, P2), WithPriority(ts, P3);
    WithPriorityOnly(ts, P0);
    WithPriorityOnly(ts, P1);
    WithPriorityOnly(ts, P2);
    WithPriorityOnly(ts, P3);
    UniformSorted(f0, P0);
    UniformSorted(f1, P1);
    UniformSorted(f2, P2);
    UniformSorted(f3, P3);
    SortedAppend(f0, f1, 1);
    SortedAppend(f0 + f1, f2, 2);
    SortedAppend(f0 + f1 + f2, f3, 3);
  }

  /** Sorting neither loses nor adds a task. */
  lemma {:induction false} SortIsPermutation(ts: seq<Task>)
    ensures multiset(SortByPriority(ts)) == multiset(ts)
  {
    if ts != [] {
      var x, r := ts[0], ts[1..];
      SortIsPermutation(r);
      assert ts == [x] + r;
      SortConsMultiset(x, r);
    }
  }

  /** Sorting `[x] + r` sorts the same tasks as `r`, and `x`. */
  lemma SortConsMultiset(x: Task, r: seq<Task>)
    ensures multiset(SortByPriority([x] + r)) == multiset{x} + multiset(SortByPriority(r))
  {
    var ts := [x] + r;
    var g0, g1, g2, g3 := WithPriority(ts, P0), WithPriority(ts, P1), WithPriority(ts, P2), WithPriority(ts, P3);
    var f0, f1, f2, f3 := WithPriority(r, P0), WithPriority(r, P1), WithPriority(r, P2), WithPriority(r, P3);
    assert multiset(SortByPriority(ts)) == multiset(g0) + multiset(g1) + multiset(g2) + multiset(g3);
    assert multiset(SortByPriority(r)) == multiset(f0) + multiset(f1) + multiset(f2) + multiset(f3);
    WithPriorityCons(x, r, x.priority);
    match x.priority
    case P0 =>
      WithPriorityConsOther(x, r, P1);
      WithPriorityConsOther(x, r, P2);
      WithPriorityConsOther(x, r, P3);
      assert multiset(g0) == multiset{x} + multiset(f0);
      UnionRegroup(multiset{x}, multiset(f0), multiset(f1), multiset(f2), multiset(f3));
    case P1 =>
      WithPriorityConsOther(x, r, P0);
      WithPriorityConsOther(x, r, P2);
      WithPriorityConsOther(x, r, P3);
      assert multiset(g1) == multiset{x} + multiset(f1);
      UnionRegroup(multiset{x}, multiset(f0), multiset(f1), multiset(f2), multiset(f3));
    case P2 =>
      WithPriorityConsOther(x, r, P0);
      WithPriorityConsOther(x, r, P1);
      WithPriorityConsOther(x, r, P3);
      assert multiset(g2) == multiset{x} + multiset(f2);
      UnionRegroup(multiset{x}, multiset(f0), multiset(f1), multiset(f2), multiset(f3));
    case P3 =>
      WithPriorityConsOther(x, r, P0);
      WithPriorityConsOther(x, r, P1);
      WithPriorityConsOther(x, r, P2);
      assert multiset(g3) == multiset{x} + multiset(f3);
      UnionRegroup(multiset{x}, multiset(f0), multiset(f1), multiset(f2), multiset(f3));
  }

  /** Adding `x` to any one of four groups adds it to their union. */
  lemma UnionRegroup(x: multiset<Task>, a: multiset<Task>, b: multiset<Task>, c: multiset<Task>, d: multiset<Task>)
    ensures (x + a) + b + c + d == x + (a + b + c + d)
    ensures a + (x + b) + c + d == x + (a + b + c + d)
    ensures a + b + (x + c) + d == x + (a + b + c + d)
    ensures a + b + c + (x + d) == x + (a + b + c + d)
  {
  }

  /** Sorting is stable: the tasks of each priority keep their relative order. */
  lemma SortIsStable(ts: seq<Task>, p: Priority)
    ensures WithPriority(SortByPriority(ts), p) == WithPriority(ts, p)
  {
    var f0, f1, f2, f3 := WithPriority(ts, P0), WithPriority(ts, P1), WithPriority(ts, P2), WithPriority(ts, P3);
    WithPriorityAppend(f0 + f1 + f2, f3, p);
    WithPriorityAppend(f0 + f1, f2, p);
    WithPriorityAppend(f0, f1, p);
    SelfFilter(ts, P0, p);
    SelfFilter(ts, P1, p);
    SelfFilter(ts, P2, p);
    SelfFilter(ts, P3, p);
    var g0, g1, g2, g3 := WithPriority(f0, p), WithPriority(f1, p), WithPriority(f2, p), WithPriority(f3, p);
    assert WithPriority(SortByPriority(ts), p) == g0 + g1 + g2 + g3;
  }

  /** Filtering the tasks of priority q by priority p keeps them all when p is q, and none otherwise. */
  lemma SelfFilter(ts: seq<Task>, q: Priority, p: Priority)
    ensures p == q ==> WithPriority(WithPriority(ts, q), p) == WithPriority(ts, q)
    ensures p != q ==> WithPriority(WithPriority(ts, q), p) == []
  {
    WithPriorityOnly(ts, q);
    if p == q {
      WithPriorityUniform(WithPriority(ts, q), p);
    } else {
      WithPriorityNone(WithPriority(ts, q), p);
    }
  }

  lemma SortedTail(ts: seq<Task>)
    requires Sorted(ts) && ts != []
    ensures Sorted(ts[1..])
    ensures forall t :: t in ts[1..] ==> Rank(ts[0].priority) <= Rank(t.priority)
  {
    var r := ts[1..];
    forall t | t in r ensures Rank(ts[0].priority) <= Rank(t.priority) {
      var k :| 0 <= k < |r| && r[k] == t;
      assert ts[k + 1] == t;
    }
  }

  lemma WithPriorityCons(x: Task, r: seq<Task>, p: Priority)
    ensures WithPriority([x] + r, p) == (if x.priority == p then [x] else []) + WithPriority(r, p)
  {
    assert ([x] + r)[0] == x;
    assert ([x] + r)[1..] == r;
  }

  lemma WithPriorityConsOther(x: Task, r: seq<Task>, p: Priority)
    requires x.priority != p
    ensures WithPriority([x] + r, p) == WithPriority(r, p)
  {
    WithPriorityCons(x, r, p);
    assert [] + WithPriority(r, p) == WithPriority(r, p);
  }

  /** A task no less urgent than all the others stays in front when sorting. */
  lemma ConsSort(x: Task, r: seq<Task>)
    requires forall t :: t in r ==> Rank(x.priority) <= Rank(t.priority)
    ensures SortByPriority([x] + r) == [x] + SortByPriority(r)
  {
    var f0, f1, f2, f3 := WithPriority(r, P0), WithPriority(r, P1), WithPriority(r, P2), WithPriority(r, P3);
    WithPriorityCons(x, r, x.priority);
    if x.priority == P0 {
      WithPriorityConsOther(x, r, P1);
      WithPriorityConsOther(x, r, P2);
      WithPriorityConsOther(x, r, P3);
      ConsFront([x], f0, f1, f2, f3);
    } else {
      WithPriorityBelow(r, P0, 1);
      WithPriorityConsOther(x, r, P0);
      if x.priority == P1 {
        WithPriorityConsOther(x, r, P2);
        WithPriorityConsOther(x, r, P3);
        ConsFront([x], [], f1, f2, f3);
      } else {
        WithPriorityBelow(r, P1, 2);
        WithPriorityConsOther(x, r, P1);
        if x.priority == P2 {
          WithPriorityConsOther(x, r, P3);
          ConsFront([x], [], [], f2, f3);
        } else {
          WithPriorityBelow(r, P2, 3);
          WithPriorityConsOther(x, r, P2);
          ConsFront([x], [], [], [], f3);
        }
      }
    }
  }

  /** The regrouping behind ConsSort: one of the four groups gains `h` in front. */
  lemma ConsFront(h: seq<Task>, a: seq<Task>, b: seq<Task>, c: seq<Task>, d: seq<Task>)
    ensures (h + a) + b + c + d == h + (a + b + c + d)
    ensures a == [] ==> [] + (h + b) + c + d == h + (a + b + c + d)
    ensures a == [] && b == [] ==> [] + [] + (h + c) + d == h + (a + b + c + d)
    ensures a == [] && b == [] && c == [] ==> [] + [] + [] + (h + d) == h + (a + b + c + d)
  {
    AppendAssoc(h, a, b);
    AppendAssoc(h, a + b, c);
    AppendAssoc(h, a + b + c, d);
  }

  /** A list already ordered by priority is its own stable sort. */
  lemma {:induction false} SortedFixed(ts: seq<Task>)
    requires Sorted(ts)
    ensures SortByPriority(ts) == ts
  {
    if ts != [] {
      SortedTail(ts);
      SortedFixed(ts[1..]);
      ConsSort(ts[0], ts[1..]);
      assert ts == [ts[0]] + ts[1..];
    }
  }

  /**
   * The stable sort is the only ordering by priority that keeps each
   * priority's tasks in their original order.
   */
  lemma SortUnique(ts: seq<Task>, us: seq<Task>)
    requires Sorted(us)
    requires forall p :: WithPriority(us, p) == WithPriority(ts, p)
    ensures us == SortByPriority(ts)
  {
    SortedFixed(us);
  }

  /** Sorting twice is sorting once. */
  lemma SortIdempotent(ts: seq<Task>)
    ensures SortByPriority(SortByPriority(ts)) == SortByPriority(ts)
  {
    SortIsSorted(ts);
    SortedFixed(SortByPriority(ts));
  }

  // ---------------------------------------------------------------------
  // get_top_backlog_task
  // ---------------------------------------------------------------------

  /** The first task after sorting, or None for an empty list. */
  function Top(ts: seq<Task>): Option<Task>
  {
    if ts == [] then None else Some(SortByPriority(ts)[0])
  }

  lemma {:induction false} WithPriorityFirst(ts: seq<Task>, p: Priority) returns (k: nat)
    requires WithPriority(ts, p) != []
    ensures k < |ts| && ts[k].priority == p && WithPriority(ts, p)[0] == ts[k]
    ensures forall j :: 0 <= j < k ==> ts[j].priority != p
  {
    if ts[0].priority == p {
      k := 0;
    } else {
      var k' := WithPriorityFirst(ts[1..], p);
      k := k' + 1;
    }
  }

  lemma WithPriorityEmpty(ts: seq<Task>, p: Priority)
    requires WithPriority(ts, p) == []
    ensures forall t :: t in ts ==> t.priority != p
  {
    WithPriorityAll(ts, p);
  }

  /**
   * get_top_backlog_task: None exactly for an empty backlog; otherwise a task
   * of the backlog whose priority is at least as urgent as every other, and
   * the earliest such task.
   */
  lemma TopSpec(ts: seq<Task>) returns (k: nat)
    ensures Top(ts).None? <==> ts == []
    ensures ts != [] ==> k < |ts| && Top(ts) == Some(ts[k])
    ensures ts != [] ==> forall j :: 0 <= j < |ts| ==> Rank(ts[k].priority) <= Rank(ts[j].priority)
    ensures ts != [] ==> forall j :: 0 <= j < k ==> Rank(ts[j].priority) > Rank(ts[k].priority)
  {
    if ts == [] {
      return 0;
    }
    var f0, f1, f2, f3 := WithPriority(ts, P0), WithPriority(ts, P1), WithPriority(ts, P2), WithPriority(ts, P3);
    WithPriorityAll(ts, P3);
    assert ts[0] in ts;
    var p: Priority;
    if f0 != [] {
      p := P0;
    } else if f1 != [] {
      WithPriorityEmpty(ts, P0);
      p := P1;
    } else if f2 != [] {
      WithPriorityEmpty(ts, P0);
      WithPriorityEmpty(ts, P1);
      p := P2;
    } else {
      WithPriorityEmpty(ts, P0);
      WithPriorityEmpty(ts, P1);
      WithPriorityEmpty(ts, P2);
      if f3 == [] {
        WithPriorityEmpty(ts, P3);
        assert false;
      }
      p := P3;
    }
    k := WithPriorityFirst(ts, p);
    assert SortByPriority(ts)[0] == WithPriority(ts, p)[0];
    forall j | 0 <= j < |ts| ensures Rank(p) <= Rank(ts[j].priority) {
      assert ts[j] in ts;
    }
  }

  // ---------------------------------------------------------------------
  // move_task's partition and updates
  // ---------------------------------------------------------------------

  /** The tasks whose id is not `id`, in order (move_task's `remaining`). */
  function Without(ts: seq<Task>, id: string): (r: seq<Task>)
    ensures |r| <= |ts|
  {
    if ts == [] then []
    else
      var last := ts[|ts| - 1];
      Without(ts[..|ts| - 1], id) + (if last.id == id then [] else [last])
  }

  /** The tasks whose id is `id`, in order. */
  function Matching(ts: seq<Task>, id: string): seq<Task>
  {
    if ts == [] then []
    else
      var last := ts[|ts| - 1];
      Matching(ts[..|ts| - 1], id) + (if last.id == id then [last] else [])
  }

  /** The last task whose id is `id` (move_task's loop keeps overwriting `task`). */
  function LastWith(ts: seq<Task>, id: string): Option<Task>
  {
    if ts == [] then None
    else if ts[|ts| - 1].id == id then Some(ts[|ts| - 1])
    else LastWith(ts[..|ts| - 1], id)
  }

  /** `t` occurs in `s` in order, possibly with gaps. */
  predicate Subsequence(t: seq<Task>, s: seq<Task>)
  {
    if t == [] then true
    else if s == [] then false
    else if t[|t| - 1] == s[|s| - 1] then Subsequence(t[..|t| - 1], s[..|s| - 1])
    else Subsequence(t, s[..|s| - 1])
  }

  /** `remaining` holds exactly the tasks without the id. */
  lemma {:induction false} WithoutMembers(ts: seq<Task>, id: string)
    ensures forall t :: t in Without(ts, id) <==> t in ts && t.id != id
  {
    if ts != [] {
      var n := |ts| - 1;
      WithoutMembers(ts[..n], id);
      assert ts == ts[..n] + [ts[n]];
    }
  }

  lemma {:induction false} MatchingIds(ts: seq<Task>, id: string)
    ensures forall t :: t in Matching(ts, id) ==> t.id == id
  {
    if ts != [] {
      MatchingIds(ts[..|ts| - 1], id);
    }
  }

  /** The partition loses no task: the remaining and the removed tasks are all of them. */
  lemma {:induction false} PartitionConserves(ts: seq<Task>, id: string)
    ensures multiset(Without(ts, id)) + multiset(Matching(ts, id)) == multiset(ts)
  {
    if ts != [] {
      var n := |ts| - 1;
      PartitionConserves(ts[..n], id);
      assert ts == ts[..n] + [ts[n]];
    }
  }

  /** The remaining tasks keep their original order. */
  lemma {:induction false} WithoutInOrder(ts: seq<Task>, id: string)
    ensures Subsequence(Without(ts, id), ts)
  {
    if ts != [] {
      var n := |ts| - 1;
      WithoutInOrder(ts[..n], id);
      var w := Without(ts, id);
      if ts[n].id != id {
        assert w[..|w| - 1] == Without(ts[..n], id);
      } else if w != [] {
        assert w == Without(ts[..n], id);
        WithoutMembers(ts[..n], id);
        assert w[|w| - 1] in w;
        assert w[|w| - 1] != ts[n];
      }
    }
  }

  /** There is no task to move exactly when no task has the id. */
  lemma {:induction false} LastWithNone(ts: seq<Task>, id: string)
    ensures LastWith(ts, id).None? <==> forall t :: t in ts ==> t.id != id
  {
    if ts != [] {
      var n := |ts| - 1;
      LastWithNone(ts[..n], id);
      assert ts == ts[..n] + [ts[n]];
    }
  }

  /** The task moved is the last one with the id. */
  lemma {:induction false} LastWithIndex(ts: seq<Task>, id: string) returns (k: nat)
    requires LastWith(ts, id).Some?
    ensures k < |ts| && ts[k] == LastWith(ts, id).value && ts[k].id == id
    ensures forall j :: k < j < |ts| ==> ts[j].id != id
  {
    var n := |ts| - 1;
    if ts[n].id == id {
      k := n;
    } else {
      k := LastWithIndex(ts[..n], id);
    }
  }

  /**
   * move_task's loop over the source queue: every task with the id replaces
   * the one found before, every other task is kept in `remaining`.
   */
  method Partition(tasks: seq<Task>, id: string) returns (task: Option<Task>, remaining: seq<Task>)
    ensures task == LastWith(tasks, id) && remaining == Without(tasks, id)
  {
    task := None;
    remaining := [];
    var i := 0;
    while i < |tasks|
      invariant 0 <= i <= |tasks|
      invariant task == LastWith(tasks[..i], id)
      invariant remaining == Without(tasks[..i], id)
    {
      var t := tasks[i];
      assert tasks[..i + 1][..i] == tasks[..i];
      if t.id == id {
        task := Some(t);
      } else {
        remaining := remaining + [t];
      }
      i := i + 1;
    }
    assert tasks[..i] == tasks;
  }

  /** One `(key, value)` pair of move_task's `updates` dict. */
  datatype Update = Update(key: string, value: Option<string>)

  /** The attributes of the Task dataclass. */
  datatype Attr =
    | AttrId | AttrTitle | AttrPriority | AttrProject | AttrCreated | AttrContext
    | AttrAgentSession | AttrStartedAt | AttrBlockedReason | AttrCompletedAt | AttrResult

  function AttrName(a: Attr): string
  {
    match a
    case AttrId => "id"
    case AttrTitle => "title"
    case AttrPriority => "priority"
    case AttrProject => "project"
    case AttrCreated => "created"
    case AttrContext => "context"
    case AttrAgentSession => "agent_session"
    case AttrStartedAt => "started_at"
    case AttrBlockedReason => "blocked_reason"
    case AttrCompletedAt => "completed_at"
    case AttrResult => "result"
  }

  /** `hasattr(task, key)`: the attribute a key names, if any. */
  function AttrOf(key: string): (r: Option<Attr>)
    ensures r.Some? ==> AttrName(r.value) == key
  {
    if key == "id" then Some(AttrId)
    else if key == "title" then Some(AttrTitle)
    else if key == "priority" then Some(AttrPriority)
    else if key == "project" then Some(AttrProject)
    else if key == "created" then Some(AttrCreated)
    else if key == "context" then Some(AttrContext)
    else if key == "agent_session" then Some(AttrAgentSession)
    else if key == "started_at" then Some(AttrStartedAt)
    else if key == "blocked_reason" then Some(AttrBlockedReason)
    else if key == "completed_at" then Some(AttrCompletedAt)
    else if key == "result" then Some(AttrResult)
    else None
  }

  /** Every attribute is found by its own name. */
  lemma AttrOfName(a: Attr)
    ensures AttrOf(AttrName(a)) == Some(a)
  {
  }

  /** The attributes that hold an optional value. */
  predicate Optional(a: Attr)
  {
    a in {AttrAgentSession, AttrStartedAt, AttrBlockedReason, AttrCompletedAt, AttrResult}
  }

  function PriorityOf(s: string): (r: Option<Priority>)
    ensures r.Some? ==> PriorityName(r.value) == s
  {
    if |s| == 2 && s[0] == 'P' && '0' <= s[1] <= '3' then Some(PriorityOfDigit(s[1])) else None
  }

  /**
   * Whether `setattr(task, key, value)` is modelled: the key names a Task
   * attribute, a required string attribute gets a string and the priority
   * gets one of "P0".."P3".
   */
  predicate Accepted(u: Update)
  {
    && AttrOf(u.key).Some?
    && (u.value.Some? || Optional(AttrOf(u.key).value))
    && (AttrOf(u.key).value == AttrPriority ==> PriorityOf(u.value.value).Some?)
  }

  /** The value of an attribute of a task, as a string or None. */
  function Get(t: Task, a: Attr): Option<string>
  {
    match a
    case AttrId => Some(t.id)
    case AttrTitle => Some(t.title)
    case AttrPriority => Some(PriorityName(t.priority))
    case AttrProject => Some(t.project)
    case AttrCreated => Some(t.created)
    case AttrContext => Some(t.context)
    case AttrAgentSession => t.agentSession
    case AttrStartedAt => t.startedAt
    case AttrBlockedReason => t.blockedReason
    case AttrCompletedAt => t.completedAt
    case AttrResult => t.result
  }

  /** `if hasattr(task, key): setattr(task, key, value)` */
  function ApplyUpdate(t: Task, u: Update): Task
  {
    if !Accepted(u) then t
    else
      var v := u.value;
      match AttrOf(u.key).value
      case AttrId => t.(id := v.value)
      case AttrTitle => t.(title := v.value)
      case AttrPriority => t.(priority := PriorityOf(v.value).value)
      case AttrProject => t.(project := v.value)
      case AttrCreated => t.(created := v.value)
      case AttrContext => t.(context := v.value)
      case AttrAgentSession => t.(agentSession := v)
      case AttrStartedAt => t.(startedAt := v)
      case AttrBlockedReason => t.(blockedReason := v)
      case AttrCompletedAt => t.(completedAt := v)
      case AttrResult => t.(result := v)
  }

  /** The updates applied in order. */
  function ApplyUpdates(t: Task, us: seq<Update>): Task
  {
    if us == [] then t else ApplyUpdate(ApplyUpdates(t, us[..|us| - 1]), us[|us| - 1])
  }

  lemma ApplyTwo(t: Task, u: Update, v: Update)
    ensures ApplyUpdates(t, [u]) == ApplyUpdate(t, u)
    ensures ApplyUpdates(t, [u, v]) == ApplyUpdate(ApplyUpdate(t, u), v)
  {
    assert [u][..0] == [];
    assert [u, v][..1] == [u];
  }

  /** move_task's loop over `updates.items()`. */
  method SetAttributes(task: Task, updates: seq<Update>) returns (t: Task)
    ensures t == ApplyUpdates(task, updates)
  {
    t := task;
    var j := 0;
    while j < |updates|
      invariant 0 <= j <= |updates|
      invariant t == ApplyUpdates(task, updates[..j])
    {
      assert updates[..j + 1][..j] == updates[..j];
      t := ApplyUpdate(t, updates[j]);
      j := j + 1;
    }
    assert updates[..j] == updates;
  }

  /** The attributes determine the task. */
  lemma GetDetermines(a: Task, b: Task)
    requires forall x :: Get(a, x) == Get(b, x)
    ensures a == b
  {
    assert Get(a, AttrPriority) == Get(b, AttrPriority);
    PriorityStringOrder(a.priority, b.priority);
    assert Get(a, AttrId) == Get(b, AttrId);
    assert Get(a, AttrTitle) == Get(b, AttrTitle);
    assert Get(a, AttrProject) == Get(b, AttrProject);
    assert Get(a, AttrCreated) == Get(b, AttrCreated);
    assert Get(a, AttrContext) == Get(b, AttrContext);
    assert Get(a, AttrAgentSession) == Get(b, AttrAgentSession);
    assert Get(a, AttrStartedAt) == Get(b, AttrStartedAt);
    assert Get(a, AttrBlockedReason) == Get(b, AttrBlockedReason);
    assert Get(a, AttrCompletedAt) == Get(b, AttrCompletedAt);
    assert Get(a, AttrResult) == Get(b, AttrResult);
  }

  /** setattr gives the named attribute the value and changes no other attribute. */
  lemma ApplyUpdateGet(t: Task, u: Update, a: Attr)
    ensures Get(ApplyUpdate(t, u), a) == if Accepted(u) && AttrOf(u.key) == Some(a) then u.value else Get(t, a)
  {
  }

  /** The value the updates leave in attribute `a`: the last accepted one, if any. */
  function LastSet(us: seq<Update>, a: Attr): Option<Option<string>>
  {
    if us == [] then None
    else if Accepted(us[|us| - 1]) && AttrOf(us[|us| - 1].key) == Some(a) then Some(us[|us| - 1].value)
    else LastSet(us[..|us| - 1], a)
  }

  /** After all updates, each attribute holds its last accepted value, or its old value. */
  lemma {:induction false} ApplyUpdatesGet(t: Task, us: seq<Update>, a: Attr)
    ensures Get(ApplyUpdates(t, us), a) == if LastSet(us, a).Some? then LastSet(us, a).value else Get(t, a)
  {
    if us != [] {
      ApplyUpdatesGet(t, us[..|us| - 1], a);
      ApplyUpdateGet(ApplyUpdates(t, us[..|us| - 1]), us[|us| - 1], a);
    }
  }

  /** Updates whose keys name no Task attribute change nothing. */
  lemma {:induction false} ForeignUpdates(t: Task, us: seq<Update>)
    requires forall i :: 0 <= i < |us| ==> AttrOf(us[i].key).None?
    ensures ApplyUpdates(t, us) == t
  {
    if us != [] {
      ForeignUpdates(t, us[..|us| - 1]);
    }
  }

  // ---------------------------------------------------------------------
  // The store
  // ---------------------------------------------------------------------

  /** The result of a move that found its task: the moved task and the new files. */
  datatype Moved = Moved(task: Task, files: map<QueueFile, string>)

  /**
   * move_task on the files: None when the source has no task with the id
   * (the ValueError); otherwise the updated task and the files after both
   * writes, the source first, so a move within one file keeps the second.
   */
  function Move(files: map<QueueFile, string>, id: string, from: QueueFile, to: QueueFile,
                updates: seq<Update>, readFrom: Draw, readTo: Draw): Option<Moved>
  {
    var src := Read(files, from, readFrom);
    var dst := Read(files, to, readTo);
    var found := LastWith(src, id);
    if found.None? then None
    else
      var t := ApplyUpdates(found.value, updates);
      Some(Moved(t, files[from := WriteTasks(Header(from), Without(src, id))]
                         [to := WriteTasks(Header(to), [t] + dst)]))
  }

  /** move_task raises exactly when the source queue has no task with the id. */
  lemma MoveFails(files: map<QueueFile, string>, id: string, from: QueueFile, to: QueueFile,
                  updates: seq<Update>, readFrom: Draw, readTo: Draw)
    ensures Move(files, id, from, to, updates, readFrom, readTo).None?
        <==> forall t :: t in Read(files, from, readFrom) ==> t.id != id
  {
    LastWithNone(Read(files, from, readFrom), id);
  }

  /**
   * Two queues rewritten one after the other read back as what was written
   * last to each; every other file is untouched.
   */
  lemma WriteTwoReadBack(files: map<QueueFile, string>, from: QueueFile, rest: seq<Task>,
                         to: QueueFile, moved: seq<Task>, d: Draw, q: QueueFile)
    requires forall t :: t in rest ==> WellFormed(t)
    requires forall t :: t in moved ==> WellFormed(t)
    ensures var after := files[from := WriteTasks(Header(from), rest)][to := WriteTasks(Header(to), moved)];
      && Read(after, to, d) == moved
      && (from != to ==> Read(after, from, d) == rest)
      && (q != from && q != to ==> Read(after, q, d) == Read(files, q, d))
  {
    var after := files[from := WriteTasks(Header(from), rest)][to := WriteTasks(Header(to), moved)];
    TwoWrites(files, from, WriteTasks(Header(from), rest), to, WriteTasks(Header(to), moved), q);
    ReadWritten(after, to, moved, d);
    if from != to {
      ReadWritten(after, from, rest, d);
    }
  }

  lemma TwoWrites(files: map<QueueFile, string>, from: QueueFile, a: string, to: QueueFile, b: string, q: QueueFile)
    ensures var after := files[from := a][to := b];
      && to in after && after[to] == b
      && (from != to ==> from in after && after[from] == a)
      && (q != from && q != to ==> Content(after, q) == Content(files, q))
  {
  }

  /** After a move the target queue reads back as the moved task in front of what it held. */
  lemma MoveReadTarget(files: map<QueueFile, string>, id: string, from: QueueFile, to: QueueFile,
                       updates: seq<Update>, readFrom: Draw, readTo: Draw, d: Draw)
    requires Move(files, id, from, to, updates, readFrom, readTo).Some?
    requires forall t :: t in Read(files, to, readTo) ==> WellFormed(t)
    requires WellFormed(Move(files, id, from, to, updates, readFrom, readTo).value.task)
    ensures var m := Move(files, id, from, to, updates, readFrom, readTo).value;
      Read(m.files, to, d) == [m.task] + Read(files, to, readTo)
  {
    var m := Move(files, id, from, to, updates, readFrom, readTo).value;
    var dst := Read(files, to, readTo);
    assert forall t :: t in [m.task] + dst ==> t == m.task || t in dst;
    assert to in m.files && m.files[to] == WriteTasks(Header(to), [m.task] + dst);
    ReadWritten(m.files, to, [m.task] + dst, d);
  }

  /**
   * After a move between two queues, reading them back gives the source
   * without the task and the target with the updated task in front; every
   * other file is untouched. Well-formedness of the tasks involved is what
   * the round trip of the record format needs.
   */
  lemma MoveReadBack(files: map<QueueFile, string>, id: string, from: QueueFile, to: QueueFile,
                     updates: seq<Update>, readFrom: Draw, readTo: Draw, d: Draw, q: QueueFile)
    requires Move(files, id, from, to, updates, readFrom, readTo).Some?
    requires forall t :: t in Read(files, from, readFrom) ==> WellFormed(t)
    requires forall t :: t in Read(files, to, readTo) ==> WellFormed(t)
    requires WellFormed(Move(files, id, from, to, updates, readFrom, readTo).value.task)
    ensures var m := Move(files, id, from, to, updates, readFrom, readTo).value;
      && Read(m.files, to, d) == [m.task] + Read(files, to, readTo)
      && (from != to ==> Read(m.files, from, d) == Without(Read(files, from, readFrom), id))
      && (q != from && q != to ==> Read(m.files, q, d) == Read(files, q, d))
  {
    var m := Move(files, id, from, to, updates, readFrom, readTo).value;
    var src := Read(files, from, readFrom);
    var dst := Read(files, to, readTo);
    WithoutMembers(src, id);
    assert forall t :: t in [m.task] + dst ==> t == m.task || t in dst;
    WriteTwoReadBack(files, from, Without(src, id), to, [m.task] + dst, d, q);
  }

  /** The steps of move_task on the files as values: read both queues, take the task out, update it, write both back. */
  method MoveFiles(files: map<QueueFile, string>, id: string, from: QueueFile, to: QueueFile,
                   updates: seq<Update>, readFrom: Draw, readTo: Draw)
    returns (r: Option<Task>, after: map<QueueFile, string>)
    ensures var m := Move(files, id, from, to, updates, readFrom, readTo);
      && (m.None? ==> r.None? && after == files)
      && (m.Some? ==> r == Some(m.value.task) && after == m.value.files)
  {
    var fromTasks := ParseTasks(Content(files, from), readFrom.ids, readFrom.today);
    var toTasks := ParseTasks(Content(files, to), readTo.ids, readTo.today);
    var task, remaining := Partition(fromTasks, id);
    if task.None? {
      return None, files;
    }
    var moved := SetAttributes(task.value, updates);
    toTasks := [moved] + toTasks;
    after := files[from := WriteTasks(Header(from), remaining)];
    after := after[to := WriteTasks(Header(to), toTasks)];
    r := Some(moved);
  }

  /**
   * The queue files. Each method is one function of task_manager.py: it
   * reads the files it needs with parse_tasks and writes them back with
   * write_tasks.
   */
  class TaskStore {
    var files: map<QueueFile, string>

    constructor (initial: map<QueueFile, string>)
      ensures files == initial
    {
      files := initial;
    }

    /** get_top_backlog_task */
    method GetTopBacklogTask(read: Draw) returns (r: Option<Task>)
      ensures r == Top(Read(files, Backlog, read))
    {
      var tasks := ParseTasks(Content(files, Backlog), read.ids, read.today);
      if tasks == [] {
        return None;
      }
      var sorted := SortByPriority(tasks);
      return Some(sorted[0]);
    }

    /** move_task: None stands for the ValueError raised when the task is not in the source. */
    method MoveTask(id: string, from: QueueFile, to: QueueFile, updates: seq<Update>,
                    readFrom: Draw, readTo: Draw) returns (r: Option<Task>)
      modifies this
      ensures var m := Move(old(files), id, from, to, updates, readFrom, readTo);
        && (m.None? ==> r.None? && files == old(files))
        && (m.Some? ==> r == Some(m.value.task) && files == m.value.files)
    {
      r, files := MoveFiles(files, id, from, to, updates, readFrom, readTo);
    }

    /** add_task: the new task is appended, the backlog is sorted by priority and written back. */
    method AddTask(title: string, project: string, priority: Priority, context: string,
                   newId: string, today: string, read: Draw) returns (task: Task)
      modifies this
      ensures task == Task(newId, title, priority, project, today, context, None, None, None, None, None)
      ensures files == old(files)[Backlog := WriteTasks(Header(Backlog),
                SortByPriority(Read(old(files), Backlog, read) + [task]))]
    {
      task := Task(newId, title, priority, project, today, context, None, None, None, None, None);
      var tasks := ParseTasks(Content(files, Backlog), read.ids, read.today);
      tasks := tasks + [task];
      tasks := SortByPriority(tasks);
      files := files[Backlog := WriteTasks(Header(Backlog), tasks)];
    }

    /** init_files: each queue that does not exist is written with its header and no tasks. */
    method InitFiles()
      modifies this
      ensures files.Keys == old(files).Keys + Queues
      ensures forall q :: q in old(files) ==> files[q] == old(files)[q]
      ensures forall q :: q in Queues && q !in old(files) ==> files[q] == WriteTasks(Header(q), [])
    {
      var order := [Backlog, InProgress, Blocked, Done];
      assert forall q :: q in Queues <==> q in order;
      var i := 0;
      while i < |order|
        invariant 0 <= i <= |order|
        invariant forall q :: q in files <==> q in old(files) || q in order[..i]
        invariant forall q :: q in old(files) ==> files[q] == old(files)[q]
        invariant forall q :: q in files && q !in old(files) ==> files[q] == WriteTasks(Header(q), [])
      {
        var q := order[i];
        assert order[..i + 1] == order[..i] + [q];
        if q !in files {
          files := files[q := WriteTasks(Header(q), [])];
        }
        i := i + 1;
      }
      assert order[..i] == order;
    }
  }

  /** A task put into a sorted list after every task of the same or a more urgent priority. */
  function InsertAfterEqual(s: seq<Task>, x: Task): (r: seq<Task>)
    ensures |r| == |s| + 1
  {
    if s == [] then [x]
    else if Rank(s[0].priority) <= Rank(x.priority) then [s[0]] + InsertAfterEqual(s[1..], x)
    else [x] + s
  }

  lemma ConsSorted(y: Task, r: seq<Task>)
    requires Sorted(r)
    requires forall t :: t in r ==> Rank(y.priority) <= Rank(t.priority)
    ensures Sorted([y] + r)
  {
    var s := [y] + r;
    forall i, j | 0 <= i < j < |s| ensures Rank(s[i].priority) <= Rank(s[j].priority) {
      assert s[j] == r[j - 1];
      if i > 0 {
        assert s[i] == r[i - 1];
      } else {
        assert r[j - 1] in r;
      }
    }
  }

  lemma {:induction false} InsertMembers(s: seq<Task>, x: Task)
    ensures forall t :: t in InsertAfterEqual(s, x) <==> t in s || t == x
  {
    if s != [] && Rank(s[0].priority) <= Rank(x.priority) {
      InsertMembers(s[1..], x);
      assert s == [s[0]] + s[1..];
    }
  }

  lemma {:induction false} InsertSorted(s: seq<Task>, x: Task)
    requires Sorted(s)
    ensures Sorted(InsertAfterEqual(s, x))
  {
    if s == [] {
    } else if Rank(s[0].priority) <= Rank(x.priority) {
      SortedTail(s);
      InsertSorted(s[1..], x);
      InsertMembers(s[1..], x);
      ConsSorted(s[0], InsertAfterEqual(s[1..], x));
    } else {
      forall t | t in s ensures Rank(x.priority) <= Rank(t.priority) {
        var k :| 0 <= k < |s| && s[k] == t;
        assert k > 0 ==> Rank(s[0].priority) <= Rank(s[k].priority);
      }
      ConsSorted(x, s);
    }
  }

  lemma {:induction false} InsertFilter(s: seq<Task>, x: Task, p: Priority)
    requires Sorted(s)
    ensures WithPriority(InsertAfterEqual(s, x), p) == WithPriority(s, p) + WithPriority([x], p)
  {
    WithPriorityCons(x, [], p);
    if s == [] {
    } else if Rank(s[0].priority) <= Rank(x.priority) {
      var r := s[1..];
      SortedTail(s);
      InsertFilter(r, x, p);
      WithPriorityCons(s[0], InsertAfterEqual(r, x), p);
      WithPriorityCons(s[0], r, p);
      assert s == [s[0]] + r;
      var e := if s[0].priority == p then [s[0]] else [];
      calc {
        WithPriority(InsertAfterEqual(s, x), p);
        e + WithPriority(InsertAfterEqual(r, x), p);
        e + (WithPriority(r, p) + WithPriority([x], p));
        { AppendAssoc(e, WithPriority(r, p), WithPriority([x], p)); }
        (e + WithPriority(r, p)) + WithPriority([x], p);
      }
    } else {
      WithPriorityCons(x, s, p);
      if x.priority == p {
        forall t | t in s ensures Rank(x.priority) + 1 <= Rank(t.priority) {
          var k :| 0 <= k < |s| && s[k] == t;
          assert k > 0 ==> Rank(s[0].priority) <= Rank(s[k].priority);
        }
        WithPriorityBelow(s, p, Rank(x.priority) + 1);
        assert WithPriority(InsertAfterEqual(s, x), p) == [x];
      } else {
        assert WithPriority(InsertAfterEqual(s, x), p) == WithPriority(s, p);
      }
    }
  }

  /** Where the task lands: after the tasks ranked at most as it, before the others. */
  lemma {:induction false} InsertPlacement(s: seq<Task>, x: Task) returns (i: nat)
    requires Sorted(s)
    ensures i <= |s| && InsertAfterEqual(s, x) == s[..i] + [x] + s[i..]
    ensures forall j :: 0 <= j < i ==> Rank(s[j].priority) <= Rank(x.priority)
    ensures forall j :: i <= j < |s| ==> Rank(s[j].priority) > Rank(x.priority)
  {
    if s == [] {
      i := 0;
    } else if Rank(s[0].priority) <= Rank(x.priority) {
      var r := s[1..];
      SortedTail(s);
      var i' := InsertPlacement(r, x);
      i := i' + 1;
      ConsSlices(s, i);
      AppendAssoc([s[0]], r[..i'], [x]);
      AppendAssoc([s[0]], r[..i'] + [x], r[i'..]);
      forall j | 0 < j < |s| ensures s[j] == r[j - 1] {
      }
    } else {
      i := 0;
      forall j | 0 <= j < |s| ensures Rank(s[j].priority) > Rank(x.priority) {
        assert j > 0 ==> Rank(s[0].priority) <= Rank(s[j].priority);
      }
    }
  }

  /**
   * add_task: appending the new task and sorting the backlog inserts the task
   * into the sorted backlog after every task of the same or a more urgent
   * priority and before every less urgent one.
   */
  lemma AddSortsIn(ts: seq<Task>, x: Task)
    ensures SortByPriority(ts + [x]) == InsertAfterEqual(SortByPriority(ts), x)
  {
    var s := SortByPriority(ts);
    SortIsSorted(ts);
    InsertSorted(s, x);
    forall p ensures WithPriority(InsertAfterEqual(s, x), p) == WithPriority(ts + [x], p) {
      InsertFilter(s, x, p);
      SortIsStable(ts, p);
      WithPriorityAppend(ts, [x], p);
    }
    SortUnique(ts + [x], InsertAfterEqual(s, x));
  }
}
