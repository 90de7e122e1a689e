/**
 * The kanban board: four status columns filled in one pass over the tasks,
 * and the drop handler that decides whether a drag moves a task.
 */
module Board {
  import opened Common
  import opened Text
  import opened Entities

  /** The columns, left to right (`STATUSES`). */
  const Statuses: seq<string> := ["Backlog", "In Progress", "Review", "Done"]

  function HasStatus(s: string): Task -> bool
  {
    (t: Task) => t.status == s
  }

  /** The tasks of each column, in input order. */
  function Columns(tasks: seq<Task>): (cols: seq<seq<Task>>)
    ensures |cols| == |Statuses|
    ensures forall j :: 0 <= j < |Statuses| ==> cols[j] == Filter(tasks, HasStatus(Statuses[j]))
  {
    [Filter(tasks, HasStatus(Statuses[0])), Filter(tasks, HasStatus(Statuses[1])),
     Filter(tasks, HasStatus(Statuses[2])), Filter(tasks, HasStatus(Statuses[3]))]
  }

  /** The column of a status, or -1 for a status the record has no array for. */
  function ColumnIndex(status: string): (j: int)
    ensures -1 <= j < |Statuses|
    ensures j >= 0 ==> Statuses[j] == status
    ensures j < 0 <==> status !in Statuses
  {
    if status == "Backlog" then 0
    else if status == "In Progress" then 1
    else if status == "Review" then 2
    else if status == "Done" then 3
    else -1
  }

  /** The record after pushing the tasks one by one; `None` once a status has no array. */
  function Pushed(tasks: seq<Task>): (r: Option<seq<seq<Task>>>)
    ensures r.Some? ==> |r.value| == |Statuses|
    decreases |tasks|
  {
    if tasks == [] then Some([[], [], [], []])
    else
      match Pushed(tasks[..|tasks| - 1])
      case None => None
      case Some(cols) =>
        var t := tasks[|tasks| - 1];
        var j := ColumnIndex(t.status);
        if j < 0 then None else Some(cols[j := cols[j] + [t]])
  }

  /** Pushing one by one fills each column with the tasks of its status, unless some status is unknown. */
  lemma {:induction false} PushedMeaning(tasks: seq<Task>)
    ensures (forall t :: t in tasks ==> t.status in Statuses) ==> Pushed(tasks) == Some(Columns(tasks))
    ensures (exists t :: t in tasks && t.status !in Statuses) ==> Pushed(tasks).None?
    decreases |tasks|
  {
    if tasks == [] {
      assert Columns(tasks) == [[], [], [], []];
    } else {
      var init, t := tasks[..|tasks| - 1], tasks[|tasks| - 1];
      assert tasks == init + [t];
      PushedMeaning(init);
      assert forall u :: u in tasks <==> u in init || u == t;
      if forall u :: u in tasks ==> u.status in Statuses {
        PushedSnoc(init, t);
      }
    }
  }

  lemma PushedSnoc(init: seq<Task>, t: Task)
    requires Pushed(init) == Some(Columns(init)) && t.status in Statuses
    ensures Pushed(init + [t]) == Some(Columns(init + [t]))
  {
    var tasks := init + [t];
    assert tasks[..|tasks| - 1] == init;
    var j := ColumnIndex(t.status);
    var cols := Columns(init)[j := Columns(init)[j] + [t]];
    assert Pushed(tasks) == Some(cols);
    forall k | 0 <= k < |Statuses|
      ensures cols[k] == Columns(tasks)[k]
    {
      ColumnSnoc(init, t, k);
      if k != j {
        StatusesDistinct();
        assert Statuses[k] != Statuses[j];
      }
    }
    assert |cols| == |Columns(tasks)|;
    assert cols == Columns(tasks);
  }

  lemma StatusesDistinct()
    ensures forall a, b :: 0 <= a < b < |Statuses| ==> Statuses[a] != Statuses[b]
  {
  }

  /** One more task lands at the end of its own column and nowhere else. */
  lemma ColumnSnoc(init: seq<Task>, t: Task, k: nat)
    requires k < |Statuses|
    ensures Columns(init + [t])[k] == Columns(init)[k] + (if Statuses[k] == t.status then [t] else [])
  {
    FilterAppend(init, [t], HasStatus(Statuses[k]));
    FilterSingle(t, HasStatus(Statuses[k]));
  }

  /**
   * `byStatus`: push every task onto the array of its status. A status with
   * no array makes `m[t.status].push` throw, and the board renders nothing.
   */
  method ByStatus(tasks: seq<Task>) returns (r: Option<seq<seq<Task>>>)
    ensures (forall t :: t in tasks ==> t.status in Statuses) ==> r == Some(Columns(tasks))
    ensures (exists t :: t in tasks && t.status !in Statuses) ==> r.None?
  {
    var cols: seq<seq<Task>> := [[], [], [], []];
    var i := 0;
    while i < |tasks|
      invariant 0 <= i <= |tasks|
      invariant Pushed(tasks[..i]) == Some(cols)
    {
      var t := tasks[i];
      var j := ColumnIndex(t.status);
      assert tasks[..i + 1][..i] == tasks[..i];
      if j < 0 {
        return None;
      }
      cols := cols[j := cols[j] + [t]];
      i := i + 1;
    }
    assert tasks[..|tasks|] == tasks;
    PushedMeaning(tasks);
    r := Some(cols);
  }

  /** Every task is in the column of its status and in no other. */
  lemma ColumnsPlaceTasks(tasks: seq<Task>, t: Task, j: int)
    requires 0 <= j < |Statuses|
    ensures t in Columns(tasks)[j] <==> t in tasks && t.status == Statuses[j]
  {
    FilterMembers(tasks, HasStatus(Statuses[j]));
  }

  /** With every status known, the column sizes add up to the number of tasks. */
  lemma {:induction false} ColumnSizesSum(tasks: seq<Task>)
    requires forall t :: t in tasks ==> t.status in Statuses
    ensures var cols := Columns(tasks);
      |cols[0]| + |cols[1]| + |cols[2]| + |cols[3]| == |tasks|
  {
    if tasks != [] {
      ColumnSizesSum(tasks[1..]);
      assert forall t :: t in tasks[1..] ==> t in tasks;
    }
  }

  /** A drag id: dnd-kit gives numbers (card ids) or strings (column ids). */
  datatype DragId = Num(n: int) | Str(s: string)

  /** JavaScript truthiness of an id: 0 and "" are falsy. */
  predicate Truthy(id: DragId)
  {
    match id
    case Num(n) => n != 0
    case Str(s) => s != ""
  }

  /** `String(overId)`. */
  function IdText(id: DragId): string
  {
    match id
    case Num(n) => IntToString(n)
    case Str(s) => s
  }

  /** `tasks.find(t => t.id === id)`: the first task with that id. */
  function FindTask(tasks: seq<Task>, id: int): (r: Option<Task>)
    ensures r.Some? ==> r.value in tasks && r.value.id == id
    ensures r.None? <==> forall t :: t in tasks ==> t.id != id
  {
    if tasks == [] then None
    else if tasks[0].id == id then Some(tasks[0])
    else
      var r := FindTask(tasks[1..], id);
      assert forall t :: t in tasks ==> t == tasks[0] || t in tasks[1..];
      r
  }

  /** The call `onMove(taskId, nextStatus)` a drop makes. */
  datatype Move = Move(taskId: int, next: string)

  /**
   * `onDragEnd`. The dragged card's id is its task id (`Number(activeId)`
   * of a number is the number itself); the drop target is a column or a card.
   */
  function OnDragEnd(tasks: seq<Task>, active: Option<int>, over: Option<DragId>): Option<Move>
  {
    if active.None? || active.value == 0 || over.None? || !Truthy(over.value) then None
    else
      var taskId := active.value;
      var nextStatus := IdText(over.value);
      if nextStatus !in Statuses then None
      else
        match FindTask(tasks, taskId)
        case None => None
        case Some(current) => if current.status == nextStatus then None else Some(Move(taskId, nextStatus))
  }

  /**
   * A drop moves a task exactly when a card with a non-zero id is dropped on
   * a column, the card's task is known, and it is not already in that column;
   * the move then asks for that column's status.
   */
  lemma DragMeaning(tasks: seq<Task>, active: Option<int>, over: Option<DragId>)
    ensures OnDragEnd(tasks, active, over).Some? <==>
      && active.Some? && active.value != 0
      && over.Some? && over.value.Str? && over.value.s in Statuses
      && FindTask(tasks, active.value).Some?
      && FindTask(tasks, active.value).value.status != over.value.s
    ensures OnDragEnd(tasks, active, over).Some? ==>
      OnDragEnd(tasks, active, over).value == Move(active.value, over.value.s)
      && (exists t :: t in tasks && t.id == active.value && t.status != over.value.s)
  {
    if over.Some? && over.value.Num? {
      NumberNotAStatus(over.value.n);
    }
  }

  /** The text of a number is never a status, so a drop on a card never moves anything. */
  lemma NumberNotAStatus(n: int)
    ensures IntToString(n) !in Statuses
  {
    var r := IntToString(n);
    assert r[0] == '-' || '0' <= r[0] <= '9';
  }

  /** A task with id 0 never moves: its id is falsy. */
  lemma ZeroIdNeverMoves(tasks: seq<Task>, over: Option<DragId>)
    ensures OnDragEnd(tasks, Some(0), over).None?
  {
  }

  /** Dropping a card on the column it is already in is a no-op. */
  lemma OwnColumnNoop(tasks: seq<Task>, t: Task)
    requires t in tasks && t.status in Statuses
    requires forall u :: u in tasks && u.id == t.id ==> u == t
    ensures OnDragEnd(tasks, Some(t.id), Some(Str(t.status))).None?
  {
  }
}
