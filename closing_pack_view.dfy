/**
 * The closing-pack page: the readiness card (the Ready pill, the checklist
 * completion line and the open-task count) beside the archive download.
 */
module ClosingPackView {
  import opened Common
  import opened Entities

  /** `t.status !== "Done"`. */
  function IsOpen(t: Task): bool
  {
    t.status != "Done"
  }

  function IsFinished(t: Task): bool
  {
    t.status == "Done"
  }

  function IsDone(c: ChecklistItem): bool
  {
    c.isDone
  }

  /** What the readiness card shows. */
  datatype Readiness = Readiness(pill: string, matter: string, done: nat, total: nat, open: nat)

  function ReadinessCard(project: Option<Project>, tasks: seq<Task>, checklist: seq<ChecklistItem>): (r: Readiness)
    ensures r.done <= r.total == |checklist|
    ensures r.open <= |tasks|
  {
    var openTasks := Filter(tasks, IsOpen);
    var done := Count(checklist, IsDone);
    Readiness(
      if |openTasks| > 0 then "Not ready" else "Ready",
      if project.Some? then project.value.title else "—",
      done, |checklist|, |openTasks|)
  }

  /** "Ready" shows exactly when every task is "Done"; the open count is the number of the others. */
  lemma {:induction false} ReadyMeaning(project: Option<Project>, tasks: seq<Task>, checklist: seq<ChecklistItem>)
    ensures ReadinessCard(project, tasks, checklist).pill == "Ready" <==> forall t :: t in tasks ==> t.status == "Done"
    ensures ReadinessCard(project, tasks, checklist).open + Count(tasks, IsFinished) == |tasks|
  {
    FilterMembers(tasks, IsOpen);
    if forall t :: t in tasks ==> t.status == "Done" {
      FilterNone(tasks, IsOpen);
    } else {
      var t :| t in tasks && t.status != "Done";
      assert t in Filter(tasks, IsOpen);
    }
    CountSplit(tasks, IsOpen, IsFinished);
  }

  /** Readiness looks only at the tasks: no checklist, complete or not, changes the pill. */
  lemma ChecklistDoesNotGateReady(project: Option<Project>, tasks: seq<Task>, c1: seq<ChecklistItem>, c2: seq<ChecklistItem>)
    ensures ReadinessCard(project, tasks, c1).pill == ReadinessCard(project, tasks, c2).pill
  {
  }

  /** With no project loaded the matter line reads "—". */
  lemma NoProjectDash(tasks: seq<Task>, checklist: seq<ChecklistItem>)
    ensures ReadinessCard(None, tasks, checklist).matter == "—"
  {
  }
}
