/**
 * The task table: a copy of the tasks sorted by due date (the date text,
 * an undated task sorting as ""), with selects and a date input whose
 * every change sends a PATCH of one field.
 */
module TasksTable {
  import opened Common
  import opened Text
  import opened Entities
  import opened Sorting
  import Dates
  import Board

  /** The status select offers the board's columns. */
  const Statuses: seq<string> := Board.Statuses

  /** The priority select (`PRIORITIES`). */
  const Priorities: seq<string> := ["Low", "Medium", "High"]

  /** `String(t.due_date ?? "")`: the ISO date text, or "". */
  function DueKey(t: Task): (k: string)
    ensures k == "" <==> t.dueDate.None?
  {
    if t.dueDate.Some? then Dates.IsoDate(t.dueDate.value) else ""
  }

  /** "a may stay before b": `DueKey(a).localeCompare(DueKey(b)) <= 0`, read as code-point order. */
  function ByDue(a: Task, b: Task): bool
  {
    !LexLess(DueKey(b), DueKey(a))
  }

  /** `rows`: the tasks, stably sorted by due-date text. */
  function Rows(tasks: seq<Task>): seq<Task>
  {
    Sort(tasks, ByDue)
  }

  lemma ByDueIsTotalPreorder()
    ensures TotalPreorder(ByDue)
  {
    forall a: Task, b: Task
      ensures ByDue(a, b) || ByDue(b, a)
    {
      LexLessAsymmetric(DueKey(a), DueKey(b));
    }
    forall a: Task, b: Task, c: Task | ByDue(a, b) && ByDue(b, c)
      ensures ByDue(a, c)
    {
      if LexLess(DueKey(c), DueKey(a)) {
        LexLessTrichotomy(DueKey(c), DueKey(b));
        if LexLess(DueKey(b), DueKey(c)) {
          LexLessTransitive(DueKey(b), DueKey(c), DueKey(a));
        }
      }
    }
  }

  /**
   * The rows are a permutation of the tasks, in non-decreasing order of
   * their date text, with tasks of equal dates in input order.
   */
  lemma RowsMeaning(tasks: seq<Task>, c: Task)
    ensures multiset(Rows(tasks)) == multiset(tasks)
    ensures forall i, j :: 0 <= i < j < |Rows(tasks)| ==> !LexLess(DueKey(Rows(tasks)[j]), DueKey(Rows(tasks)[i]))
    ensures Filter(Rows(tasks), Ties(c, ByDue)) == Filter(tasks, Ties(c, ByDue))
  {
    ByDueIsTotalPreorder();
    SortSorted(tasks, ByDue);
    SortStable(tasks, ByDue, c);
    forall i, j | 0 <= i < j < |Rows(tasks)|
      ensures !LexLess(DueKey(Rows(tasks)[j]), DueKey(Rows(tasks)[i]))
    {
      assert ByDue(Rows(tasks)[i], Rows(tasks)[j]);
    }
  }

  /** Undated tasks sort as "", before every dated one. */
  lemma UndatedFirst(tasks: seq<Task>, i: int, j: int)
    requires 0 <= i < j < |Rows(tasks)|
    requires Rows(tasks)[j].dueDate.None?
    ensures Rows(tasks)[i].dueDate.None?
  {
    RowsMeaning(tasks, Rows(tasks)[i]);
    assert !LexLess(DueKey(Rows(tasks)[j]), DueKey(Rows(tasks)[i]));
  }

  /** One change in a row. The date input gives "" (sent as null) or a date. */
  datatype Edit = StatusEdit(status: string) | DueEdit(value: Option<int>) | PriorityEdit(priority: string)

  /** The PATCH body each change sends. */
  function PatchOf(e: Edit): TaskUpdate
  {
    match e
    case StatusEdit(s) => NoTaskChanges.(status := Set(Some(s)))
    case DueEdit(v) => NoTaskChanges.(dueDate := Set(v))
    case PriorityEdit(p) => NoTaskChanges.(priority := Set(Some(p)))
  }

  /** How many fields a PATCH body carries. */
  function SentFields(u: TaskUpdate): nat
  {
    (if u.title.Set? then 1 else 0) + (if u.status.Set? then 1 else 0)
    + (if u.assignee.Set? then 1 else 0) + (if u.dueDate.Set? then 1 else 0)
    + (if u.priority.Set? then 1 else 0) + (if u.tags.Set? then 1 else 0)
    + (if u.description.Set? then 1 else 0)
  }

  /**
   * Every change sends exactly one field; a cleared date is sent as an
   * explicit null, and status and priority are never sent as null.
   */
  lemma SingleFieldPatches(e: Edit)
    ensures SentFields(PatchOf(e)) == 1
    ensures e.StatusEdit? ==> PatchOf(e).status == Set(Some(e.status))
    ensures e.DueEdit? ==> PatchOf(e).dueDate == Set(e.value)
    ensures e.PriorityEdit? ==> PatchOf(e).priority == Set(Some(e.priority))
  {
  }
}
