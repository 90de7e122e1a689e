/**
 * The deadline alerts of the calendar page: the twelve soonest open, dated
 * tasks and the overdue ones among them, with the badge above the table.
 * The schedule page computes the same list.
 */
module CalendarView {
  import opened Common
  import opened Text
  import opened Entities
  import opened Sorting

  /** How many alerts the list keeps. */
  const MaxAlerts: nat := 12

  /** Offset the client uses when a date is missing. */
  const NoDateOffset: int := 9999

  /** A task with its day offset `d` from today (`{ ...t, d }`). */
  datatype Alert = Alert(task: Task, d: int)

  /** A task with a due date that is not "Done". */
  function IsPending(t: Task): bool
  {
    t.dueDate.Some? && t.status != "Done"
  }

  /** `daysUntil(t.due_date) ?? 9999`. */
  function WithOffset(today: int): Task -> Alert
  {
    (t: Task) => Alert(t, if t.dueDate.Some? then t.dueDate.value - today else NoDateOffset)
  }

  /** The comparator `a.d - b.d`, read as "a may stay before b". */
  function ByOffset(a: Alert, b: Alert): bool
  {
    a.d <= b.d
  }

  /** All pending tasks with their offsets, sorted soonest first (a stable sort on a copy of `tasks`). */
  function SortedAlerts(tasks: seq<Task>, today: int): seq<Alert>
  {
    Sort(Map(Filter(tasks, IsPending), WithOffset(today)), ByOffset)
  }

  /** `upcoming`: the first twelve of them. */
  function Upcoming(tasks: seq<Task>, today: int): (r: seq<Alert>)
    ensures |r| <= MaxAlerts
  {
    Take(SortedAlerts(tasks, today), MaxAlerts)
  }

  /** `(daysUntil(t.due_date) ?? 0) < 0`, recomputed from the task. */
  function IsOverdueAlert(today: int): Alert -> bool
  {
    (a: Alert) => (if a.task.dueDate.Some? then a.task.dueDate.value - today else 0) < 0
  }

  /** `overdue`. */
  function OverdueAlerts(tasks: seq<Task>, today: int): seq<Alert>
  {
    Filter(Upcoming(tasks, today), IsOverdueAlert(today))
  }

  lemma ByOffsetIsTotalPreorder()
    ensures TotalPreorder(ByOffset)
  {
  }

  /** Every alert of the full list is a pending task of the input, with its true offset. */
  lemma {:induction false} SortedAlertsFromPending(tasks: seq<Task>, today: int)
    ensures forall a :: a in SortedAlerts(tasks, today) ==>
      a.task in tasks && IsPending(a.task) && a.d == a.task.dueDate.value - today
  {
    var pending := Filter(tasks, IsPending);
    var mapped := Map(pending, WithOffset(today));
    FilterMembers(tasks, IsPending);
    forall a | a in SortedAlerts(tasks, today)
      ensures a.task in tasks && IsPending(a.task) && a.d == a.task.dueDate.value - today
    {
      assert a in multiset(mapped);
      var i :| 0 <= i < |mapped| && mapped[i] == a;
      assert pending[i] in pending;
    }
  }

  /**
   * The alert list: at most twelve entries, only pending tasks of the
   * input with their offsets, soonest first, ties in input order.
   */
  lemma UpcomingMeaning(tasks: seq<Task>, today: int, c: Alert)
    ensures var u := Upcoming(tasks, today);
      && |u| <= MaxAlerts
      && (forall a :: a in u ==> a.task in tasks && IsPending(a.task) && a.d == a.task.dueDate.value - today)
      && (forall i, j :: 0 <= i < j < |u| ==> u[i].d <= u[j].d)
    ensures Filter(SortedAlerts(tasks, today), Ties(c, ByOffset))
      == Filter(Map(Filter(tasks, IsPending), WithOffset(today)), Ties(c, ByOffset))
  {
    var all := SortedAlerts(tasks, today);
    SortedAlertsFromPending(tasks, today);
    SortSorted(Map(Filter(tasks, IsPending), WithOffset(today)), ByOffset);
    SortStable(Map(Filter(tasks, IsPending), WithOffset(today)), ByOffset, c);
    var u := Upcoming(tasks, today);
    assert u == all[..|u|];
    forall i, j | 0 <= i < j < |u|
      ensures u[i].d <= u[j].d
    {
      assert ByOffset(all[i], all[j]);
    }
    forall a | a in u
      ensures a in all
    {
    }
  }

  /** The cut keeps the soonest: every pending task left out is due no sooner than any listed one. */
  lemma UpcomingAreSoonest(tasks: seq<Task>, today: int, i: int, j: int)
    requires 0 <= i < |Upcoming(tasks, today)| <= j < |SortedAlerts(tasks, today)|
    ensures Upcoming(tasks, today)[i].d <= SortedAlerts(tasks, today)[j].d
  {
    SortSorted(Map(Filter(tasks, IsPending), WithOffset(today)), ByOffset);
    assert ByOffset(SortedAlerts(tasks, today)[i], SortedAlerts(tasks, today)[j]);
  }

  /**
   * The overdue alerts are exactly the listed ones with a negative offset,
   * and they are the first entries of the list.
   */
  lemma OverdueIsPrefix(tasks: seq<Task>, today: int)
    ensures var u := Upcoming(tasks, today);
      var o := OverdueAlerts(tasks, today);
      o == u[..|o|] && |o| <= MaxAlerts
      && (forall a :: a in o <==> a in u && a.d < 0)
  {
    var u := Upcoming(tasks, today);
    var p := IsOverdueAlert(today);
    UpcomingMeaning(tasks, today, Alert(Task(0, 0, "", "", "", None, "", None, None), 0));
    assert forall a :: a in u ==> (p(a) <==> a.d < 0);
    FilterDownwardPrefix(u, p);
    FilterMembers(u, p);
  }

  /** The badge: "<n> overdue", or "No overdue". */
  function Badge(overdue: seq<Alert>): string
  {
    if |overdue| > 0 then IntToString(|overdue|) + " overdue" else "No overdue"
  }

  /** The badge counts the overdue alerts, and says so only when there is one. */
  lemma BadgeCases(overdue: seq<Alert>)
    ensures |overdue| == 0 <==> Badge(overdue) == "No overdue"
    ensures |overdue| > 0 ==> StartsWith(Badge(overdue), IntToString(|overdue|))
  {
    if |overdue| > 0 {
      var r := Badge(overdue);
      assert r[0] != 'N';
    }
  }
}
