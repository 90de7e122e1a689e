/**
 * The backend's read queries over its tables.  A table is the sequence of
 * its rows in storage (insertion) order; `db.get` is a lookup by primary
 * key, and `ORDER BY` a stable sort, so rows with equal sort keys come back
 * in storage order.
 */
module DbQueries {
  import opened Common
  import opened Entities
  import opened Sorting

  function ProjectIdOf(p: Project): int { p.id }
  function TaskIdOf(t: Task): int { t.id }
  function ChecklistIdOf(c: ChecklistItem): int { c.id }
  function ActivityIdOf(a: Activity): int { a.id }
  function FileIdOf(f: FileItem): int { f.id }
  function TimelineIdOf(m: TimelineItem): int { m.id }
  function CreatedAtOf(a: Activity): int { a.createdAt }
  function UploadedAtOf(f: FileItem): int { f.uploadedAt }
  function StartOf(m: TimelineItem): int { m.startDate }

  /** Primary keys are unique within a table. */
  ghost predicate UniqueIds<T>(rows: seq<T>, id: T -> int)
  {
    forall i, j :: 0 <= i < j < |rows| ==> id(rows[i]) != id(rows[j])
  }

  /** The position of the row with primary key `key`, or -1. */
  function Locate<T>(rows: seq<T>, id: T -> int, key: int): (i: int)
    ensures -1 <= i < |rows|
    ensures i >= 0 ==> id(rows[i]) == key
    ensures i == -1 <==> forall j :: 0 <= j < |rows| ==> id(rows[j]) != key
    decreases |rows|
  {
    if rows == [] then -1
    else if id(rows[|rows| - 1]) == key then |rows| - 1
    else Locate(rows[..|rows| - 1], id, key)
  }

  /** With unique keys the row found is the only one with that key. */
  lemma LocateUnique<T>(rows: seq<T>, id: T -> int, key: int, j: int)
    requires UniqueIds(rows, id)
    requires 0 <= j < |rows| && id(rows[j]) == key
    ensures Locate(rows, id, key) == j
  {
    var i := Locate(rows, id, key);
    assert i != -1;
  }

  /** `db.get(Model, key)`: the row with that primary key, if any. */
  function Get<T>(rows: seq<T>, id: T -> int, key: int): (r: Option<T>)
    ensures r.Some? ==> r.value in rows && id(r.value) == key
    ensures r.None? <==> forall x :: x in rows ==> id(x) != key
  {
    var i := Locate(rows, id, key);
    if i == -1 then None else Some(rows[i])
  }

  /** The largest primary key of a table, 0 for an empty one. */
  function MaxId<T>(rows: seq<T>, id: T -> int): (m: int)
    ensures m >= 0
    ensures forall j :: 0 <= j < |rows| ==> id(rows[j]) <= m
    decreases |rows|
  {
    if rows == [] then 0
    else
      var m := MaxId(rows[..|rows| - 1], id);
      var last := id(rows[|rows| - 1]);
      if last > m then last else m
  }

  /** The key SQLite gives an inserted row: one more than the largest key. */
  function NextId<T>(rows: seq<T>, id: T -> int): int
  {
    MaxId(rows, id) + 1
  }

  /** Inserting a row under the next key keeps the keys unique. */
  lemma InsertKeepsUnique<T>(rows: seq<T>, id: T -> int, x: T)
    requires UniqueIds(rows, id) && id(x) == NextId(rows, id)
    ensures UniqueIds(rows + [x], id)
    ensures forall j :: 0 <= j < |rows| ==> id(rows[j]) < id(x)
  {
  }

  /** After a row goes in under the next key, the next key is one above it. */
  lemma NextIdAfterInsert<T>(rows: seq<T>, id: T -> int, x: T)
    requires id(x) == NextId(rows, id)
    ensures NextId(rows + [x], id) == id(x) + 1
  {
    assert (rows + [x])[..|rows|] == rows;
  }

  /** Replacing a row by one with the same key keeps the keys unique. */

  lemma ReplaceKeepsUnique<T>(rows: seq<T>, id: T -> int, i: int, x: T)
    requires UniqueIds(rows, id) && 0 <= i < |rows| && id(x) == id(rows[i])
    ensures UniqueIds(rows[i := x], id)
  {
  }

  /** Ascending by an integer column. */
  function Asc<T>(key: T -> int): (T, T) -> bool
  {
    (a: T, b: T) => key(a) <= key(b)
  }

  /** Descending by an integer column. */
  function Desc<T>(key: T -> int): (T, T) -> bool
  {
    (a: T, b: T) => key(a) >= key(b)
  }

  lemma KeyOrders<T(!new)>(key: T -> int)
    ensures TotalPreorder(Asc(key)) && TotalPreorder(Desc(key))
  {
  }

  /** `ORDER BY due_date IS NULL, due_date ASC`: dated tasks by date, then undated ones. */
  function DueFirst(a: Task, b: Task): bool
  {
    if a.dueDate.Some? && b.dueDate.Some? then a.dueDate.value <= b.dueDate.value
    else a.dueDate.Some? || b.dueDate.None?
  }

  lemma DueFirstIsTotalPreorder()
    ensures TotalPreorder(DueFirst)
  {
  }

  /** `list_tasks`: the project's tasks when a project is given, all tasks otherwise. */
  function ListTasks(tasks: seq<Task>, projectId: Option<int>): seq<Task>
  {
    var q := if projectId.Some? then Filter(tasks, TaskOfProject(projectId.value)) else tasks;
    Sort(q, DueFirst)
  }

  /**
   * The listed tasks are the selected tasks, rearranged: dated tasks first,
   * in ascending date order, then the undated ones.
   */
  lemma ListTasksMeaning(tasks: seq<Task>, projectId: Option<int>)
    ensures var r := ListTasks(tasks, projectId);
      && (projectId.None? ==> multiset(r) == multiset(tasks))
      && (projectId.Some? ==> multiset(r) == multiset(Filter(tasks, TaskOfProject(projectId.value))))
      && (forall i, j :: 0 <= i < j < |r| && r[j].dueDate.Some? ==> r[i].dueDate.Some?)
      && (forall i, j :: 0 <= i < j < |r| && r[i].dueDate.Some? && r[j].dueDate.Some? ==>
            r[i].dueDate.value <= r[j].dueDate.value)
  {
    var q := if projectId.Some? then Filter(tasks, TaskOfProject(projectId.value)) else tasks;
    DueFirstIsTotalPreorder();
    SortSorted(q, DueFirst);
  }

  /** With a project given, only that project's tasks are listed. */
  lemma ListTasksOfProject(tasks: seq<Task>, projectId: int)
    ensures forall t :: t in ListTasks(tasks, Some(projectId)) <==> t in tasks && t.projectId == projectId
  {
    var q := Filter(tasks, TaskOfProject(projectId));
    FilterMembers(tasks, TaskOfProject(projectId));
    assert forall t :: t in ListTasks(tasks, Some(projectId)) <==> t in multiset(q);
  }

  /** `list_projects`: newest key first. */
  function ListProjects(projects: seq<Project>): seq<Project>
  {
    Sort(projects, Desc(ProjectIdOf))
  }

  /** All projects, keys strictly decreasing. */
  lemma ListProjectsMeaning(projects: seq<Project>)
    requires UniqueIds(projects, ProjectIdOf)
    ensures var r := ListProjects(projects);
      multiset(r) == multiset(projects) && forall i, j :: 0 <= i < j < |r| ==> r[i].id > r[j].id
  {
    var r := ListProjects(projects);
    KeyOrders(ProjectIdOf);
    SortSorted(projects, Desc(ProjectIdOf));
    SortKeepsUnique(projects, Desc(ProjectIdOf), ProjectIdOf);
    forall i, j | 0 <= i < j < |r|
      ensures r[i].id > r[j].id
    {
      assert Desc(ProjectIdOf)(r[i], r[j]);
      assert ProjectIdOf(r[i]) != ProjectIdOf(r[j]);
    }
  }

  /** A rearrangement of rows with unique keys has unique keys. */
  lemma SortKeepsUnique<T>(rows: seq<T>, le: (T, T) -> bool, id: T -> int)
    requires UniqueIds(rows, id)
    ensures UniqueIds(Sort(rows, le), id)
  {
    var r := Sort(rows, le);
    forall i, j | 0 <= i < j < |r|
      ensures id(r[i]) != id(r[j])
    {
      if id(r[i]) == id(r[j]) {
        assert r[i] in multiset(rows) && r[j] in multiset(rows);
        var a :| 0 <= a < |rows| && rows[a] == r[i];
        var b :| 0 <= b < |rows| && rows[b] == r[j];
        assert a == b;
        TwiceInMultiset(r, i, j);
        OccursOnce(rows, id, a);
      }
    }
  }

  /** Two positions holding the same element count it twice. */
  lemma TwiceInMultiset<T>(r: seq<T>, i: int, j: int)
    requires 0 <= i < j < |r| && r[i] == r[j]
    ensures multiset(r)[r[i]] >= 2
  {
    assert r == r[..i] + [r[i]] + r[i + 1..j] + [r[j]] + r[j + 1..];
  }

  /** A row of a table with unique keys occurs in it once. */
  lemma OccursOnce<T>(rows: seq<T>, id: T -> int, a: int)
    requires UniqueIds(rows, id) && 0 <= a < |rows|
    ensures multiset(rows)[rows[a]] == 1
  {
    var x := rows[a];
    assert rows == rows[..a] + [x] + rows[a + 1..];
    forall j | 0 <= j < |rows| && j != a
      ensures rows[j] != x
    {
      if j < a {
        assert id(rows[j]) != id(rows[a]);
      } else {
        assert id(rows[a]) != id(rows[j]);
      }
    }
    assert x !in rows[..a] by {
      forall j | 0 <= j < a
        ensures rows[..a][j] != x
      {
        assert rows[..a][j] == rows[j];
      }
    }
    var tail := rows[a + 1..];
    assert x !in tail by {
      forall j | 0 <= j < |tail|
        ensures tail[j] != x
      {
        assert tail[j] == rows[a + 1 + j];
      }
    }
  }

  /** `list_items`: the project's checklist, by key. */
  function ListItems(checklist: seq<ChecklistItem>, projectId: int): seq<ChecklistItem>
  {
    Sort(Filter(checklist, ChecklistOfProject(projectId)), Asc(ChecklistIdOf))
  }

  /** Exactly the project's items, keys strictly increasing. */
  lemma ListItemsMeaning(checklist: seq<ChecklistItem>, projectId: int)
    requires UniqueIds(checklist, ChecklistIdOf)
    ensures var r := ListItems(checklist, projectId);
      && multiset(r) == multiset(Filter(checklist, ChecklistOfProject(projectId)))
      && (forall c :: c in r <==> c in checklist && c.projectId == projectId)
      && (forall i, j :: 0 <= i < j < |r| ==> r[i].id < r[j].id)
  {
    var q := Filter(checklist, ChecklistOfProject(projectId));
    var r := ListItems(checklist, projectId);
    assert forall c :: c in r <==> c in checklist && c.projectId == projectId by {
      FilterMembers(checklist, ChecklistOfProject(projectId));
      SortMembers(q, Asc(ChecklistIdOf));
    }
    FilterKeepsUnique(checklist, ChecklistOfProject(projectId), ChecklistIdOf);
    AscStrict(q, ChecklistIdOf, r);
    assert forall i, j :: 0 <= i < j < |r| ==> ChecklistIdOf(r[i]) < ChecklistIdOf(r[j]);
  }

  /** Sorting rows with unique keys by key puts the keys in strictly increasing order. */
  lemma AscStrict<T(!new)>(rows: seq<T>, key: T -> int, r: seq<T>)
    requires UniqueIds(rows, key) && r == Sort(rows, Asc(key))
    ensures forall i, j :: 0 <= i < j < |r| ==> key(r[i]) < key(r[j])
  {
    AscSorted(rows, key, r);
    SortKeepsUnique(rows, Asc(key), key);
  }

  /** Selecting rows keeps keys unique. */
  lemma FilterKeepsUnique<T>(rows: seq<T>, p: T -> bool, id: T -> int)
    requires UniqueIds(rows, id)
    ensures UniqueIds(Filter(rows, p), id)
  {
    FilterIsSubsequence(rows, p);
    SubsequenceKeepsUnique(Filter(rows, p), rows, id);
  }

  lemma {:induction false} SubsequenceKeepsUnique<T>(a: seq<T>, b: seq<T>, id: T -> int)
    requires SubsequenceOf(a, b) && UniqueIds(b, id)
    ensures UniqueIds(a, id)
    decreases |b|
  {
    if a != [] && b != [] {
      if a[0] == b[0] {
        SubsequenceKeepsUnique(a[1..], b[1..], id);
        SubsequenceMembers(a[1..], b[1..]);
        forall j | 0 < j < |a|
          ensures id(a[0]) != id(a[j])
        {
          assert a[j] == a[1..][j - 1];
          assert a[j] in a[1..];
          assert a[j] in b[1..];
          var k :| 0 <= k < |b[1..]| && b[1..][k] == a[j];
          assert id(b[0]) != id(b[k + 1]);
        }
      } else {
        SubsequenceKeepsUnique(a, b[1..], id);
      }
    }
  }

  lemma {:induction false} SubsequenceMembers<T>(a: seq<T>, b: seq<T>)
    requires SubsequenceOf(a, b)
    ensures forall x :: x in a ==> x in b
    decreases |b|
  {
    if a != [] && b != [] {
      if a[0] == b[0] {
        SubsequenceMembers(a[1..], b[1..]);
        forall x | x in a
          ensures x in b
        {
          if x != a[0] {
            assert x in a[1..];
            assert x in b[1..];
          }
        }
      } else {
        SubsequenceMembers(a, b[1..]);
        forall x | x in a
          ensures x in b
        {
          assert x in b[1..];
        }
      }
    }
  }

  /** Sorting keeps exactly the rows it is given. */
  lemma SortMembers<T>(rows: seq<T>, le: (T, T) -> bool)
    ensures forall x :: x in Sort(rows, le) <==> x in rows
  {
    assert forall x :: x in Sort(rows, le) <==> x in multiset(Sort(rows, le));
  }

  lemma AscSorted<T(!new)>(rows: seq<T>, key: T -> int, r: seq<T>)
    requires r == Sort(rows, Asc(key))
    ensures forall i, j :: 0 <= i < j < |r| ==> key(r[i]) <= key(r[j])
  {
    KeyOrders(key);
    SortSorted(rows, Asc(key));
    forall i, j | 0 <= i < j < |r|
      ensures key(r[i]) <= key(r[j])
    {
      assert Asc(key)(r[i], r[j]);
    }
  }

  lemma DescSorted<T(!new)>(rows: seq<T>, key: T -> int, r: seq<T>)
    requires r == Sort(rows, Desc(key))
    ensures forall i, j :: 0 <= i < j < |r| ==> key(r[i]) >= key(r[j])
  {
    KeyOrders(key);
    SortSorted(rows, Desc(key));
    forall i, j | 0 <= i < j < |r|
      ensures key(r[i]) >= key(r[j])
    {
      assert Desc(key)(r[i], r[j]);
    }
  }

  /**
   * The first `n` rows of a descending sort are the top ones: no row left
   * out has a larger key than a row kept, and kept and left out together
   * are the input.
   */
  lemma TopRows<T(!new)>(rows: seq<T>, key: T -> int, n: nat, all: seq<T>, r: seq<T>)
    requires all == Sort(rows, Desc(key)) && r == Take(all, n)
    ensures forall a, b :: a in r && b in all[|r|..] ==> key(a) >= key(b)
    ensures multiset(r) + multiset(all[|r|..]) == multiset(rows)
  {
    DescSorted(rows, key, all);
    forall a, b | a in r && b in all[|r|..]
      ensures key(a) >= key(b)
    {
      KeptBeforeLeftOut(all, |r|, a, b);
    }
    SplitMultiset(all, |r|);
  }

  /** A row kept by a cut sits before every row the cut leaves out. */
  lemma KeptBeforeLeftOut<T>(all: seq<T>, n: nat, a: T, b: T)
    requires n <= |all| && a in all[..n] && b in all[n..]
    ensures exists i, j :: 0 <= i < j < |all| && all[i] == a && all[j] == b
  {
    var i :| 0 <= i < n && all[..n][i] == a;
    var k :| 0 <= k < |all| - n && all[n..][k] == b;
    assert all[i] == a && all[n + k] == b;
  }

  /** Cutting a sequence in two keeps every element. */
  lemma SplitMultiset<T>(all: seq<T>, n: nat)
    requires n <= |all|
    ensures multiset(all[..n]) + multiset(all[n..]) == multiset(all)
  {
    assert all == all[..n] + all[n..];
  }

  /** `list_files`: the project's files, newest upload first. */
  function ListFiles(files: seq<FileItem>, projectId: int): seq<FileItem>
  {
    Sort(Filter(files, FileOfProject(projectId)), Desc(UploadedAtOf))
  }

  /** Exactly the project's files, upload times non-increasing. */
  lemma ListFilesMeaning(files: seq<FileItem>, projectId: int)
    ensures var r := ListFiles(files, projectId);
      && multiset(r) == multiset(Filter(files, FileOfProject(projectId)))
      && (forall f :: f in r <==> f in files && f.projectId == projectId)
      && (forall i, j :: 0 <= i < j < |r| ==> r[i].uploadedAt >= r[j].uploadedAt)
  {
    var q := Filter(files, FileOfProject(projectId));
    var r := ListFiles(files, projectId);
    assert forall f :: f in r <==> f in files && f.projectId == projectId by {
      FilterMembers(files, FileOfProject(projectId));
      SortMembers(q, Desc(UploadedAtOf));
    }
    assert forall i, j :: 0 <= i < j < |r| ==> r[i].uploadedAt >= r[j].uploadedAt by {
      DescSorted(q, UploadedAtOf, r);
      assert forall i, j :: 0 <= i < j < |r| ==> UploadedAtOf(r[i]) >= UploadedAtOf(r[j]);
    }
  }

  const ActivityLimit: nat := 100

  /** The project's activity sorted newest first, before the limit. */
  function ActivityByRecency(activities: seq<Activity>, projectId: int): seq<Activity>
  {
    Sort(Filter(activities, ActivityOfProject(projectId)), Desc(CreatedAtOf))
  }

  /** `list_activity`: the project's activity, newest first, at most 100 rows. */
  function ListActivity(activities: seq<Activity>, projectId: int): seq<Activity>
  {
    Take(ActivityByRecency(activities, projectId), ActivityLimit)
  }

  /** At most 100 rows (all of them when there are no more), all of the project, newest first. */
  lemma ListActivityMeaning(activities: seq<Activity>, projectId: int)
    ensures var r := ListActivity(activities, projectId);
      var all := ActivityByRecency(activities, projectId);
      && |r| <= ActivityLimit
      && (|all| <= ActivityLimit ==> r == all)
      && (forall a :: a in r ==> a in activities && a.projectId == projectId)
      && (forall i, j :: 0 <= i < j < |r| ==> r[i].createdAt >= r[j].createdAt)
  {
    var q := Filter(activities, ActivityOfProject(projectId));
    var all := ActivityByRecency(activities, projectId);
    var r := ListActivity(activities, projectId);
    assert r == all[..|r|];
    assert forall a :: a in r ==> a in activities && a.projectId == projectId by {
      FilterMembers(activities, ActivityOfProject(projectId));
      SortMembers(q, Desc(CreatedAtOf));
      forall a | a in r
        ensures a in all
      {
      }
    }
    DescSorted(q, CreatedAtOf, all);
    assert forall i, j :: 0 <= i < j < |r| ==> CreatedAtOf(all[i]) >= CreatedAtOf(all[j]);
  }

  /**
   * The rows returned are the most recent ones: every row of the project
   * left out is no newer than any row returned, and together they are all
   * the project's rows.
   */
  lemma ListActivityMostRecent(activities: seq<Activity>, projectId: int)
    ensures var r := ListActivity(activities, projectId);
      var all := ActivityByRecency(activities, projectId);
      && (forall a, b :: a in r && b in all[|r|..] ==> a.createdAt >= b.createdAt)
      && multiset(r) + multiset(all[|r|..]) == multiset(Filter(activities, ActivityOfProject(projectId)))
  {
    var q := Filter(activities, ActivityOfProject(projectId));
    var all := ActivityByRecency(activities, projectId);
    var r := ListActivity(activities, projectId);
    TopRows(q, CreatedAtOf, ActivityLimit, all, r);
    forall a, b | a in r && b in all[|r|..]
      ensures a.createdAt >= b.createdAt
    {
      assert CreatedAtOf(a) >= CreatedAtOf(b);
    }
  }

  /** `list_timeline`: the project's timeline by start date. */
  function ListTimeline(items: seq<TimelineItem>, projectId: int): seq<TimelineItem>
  {
    Sort(Filter(items, TimelineOfProject(projectId)), Asc(StartOf))
  }

  /** All the project's items and only them, no limit, start dates non-decreasing. */
  lemma ListTimelineMeaning(items: seq<TimelineItem>, projectId: int)
    ensures var r := ListTimeline(items, projectId);
      && multiset(r) == multiset(Filter(items, TimelineOfProject(projectId)))
      && |r| == Count(items, TimelineOfProject(projectId))
      && (forall m :: m in r <==> m in items && m.projectId == projectId)
      && (forall i, j :: 0 <= i < j < |r| ==> r[i].startDate <= r[j].startDate)
      && ((forall m :: m in items ==> m.projectId != projectId) ==> r == [])
  {
    var q := Filter(items, TimelineOfProject(projectId));
    var r := ListTimeline(items, projectId);
    FilterMembers(items, TimelineOfProject(projectId));
    SortMembers(q, Asc(StartOf));
    AscSorted(q, StartOf, r);
    if r != [] {
      assert r[0] in items && r[0].projectId == projectId;
    }
  }
}
