/**
 * The records the backend stores and the client receives as JSON: projects,
 * tasks, checklist items, timeline items, activities and uploaded files.
 * Dates are day numbers, timestamps are integers, nullable columns are `Option`s.
 */
module Entities {
  import opened Common

  datatype Client = Client(id: int, name: string)

  datatype Project = Project(
    id: int,
    title: string,
    transactionType: string,
    location: string,
    status: string,
    risk: string,
    bgColor: string,
    startDate: Option<int>,
    targetCloseDate: Option<int>,
    clientId: Option<int>,
    client: Option<Client>)

  datatype Task = Task(
    id: int,
    projectId: int,
    title: string,
    status: string,
    assignee: string,
    dueDate: Option<int>,
    priority: string,
    tags: Option<string>,
    description: Option<string>)

  datatype ChecklistItem = ChecklistItem(
    id: int,
    projectId: int,
    stage: string,
    itemLabel: string,
    isDone: bool,
    dueDate: Option<int>)

  datatype TimelineItem = TimelineItem(
    id: int,
    projectId: int,
    itemLabel: string,
    startDate: int,
    endDate: int,
    kind: string)

  datatype Activity = Activity(
    id: int,
    projectId: int,
    createdAt: int,
    actor: string,
    verb: string,
    detail: Option<string>)

  datatype FileItem = FileItem(
    id: int,
    projectId: int,
    filename: string,
    storedPath: string,
    mimeType: Option<string>,
    uploadedAt: int,
    uploader: string)

  /**
   * One field of a PATCH body: left out (`exclude_unset` drops it), or sent,
   * possibly as an explicit null.
   */
  datatype Field<T> = Unset | Set(value: T)

  /** The body of a task PATCH: every field optional. */
  datatype TaskUpdate = TaskUpdate(
    title: Field<Option<string>>,
    status: Field<Option<string>>,
    assignee: Field<Option<string>>,
    dueDate: Field<Option<int>>,
    priority: Field<Option<string>>,
    tags: Field<Option<string>>,
    description: Field<Option<string>>)

  /** A task PATCH body with nothing in it. */
  const NoTaskChanges: TaskUpdate := TaskUpdate(Unset, Unset, Unset, Unset, Unset, Unset, Unset)

  /** The body of a project PATCH. */
  datatype ProjectUpdate = ProjectUpdate(
    title: Field<Option<string>>,
    status: Field<Option<string>>,
    risk: Field<Option<string>>,
    targetCloseDate: Field<Option<int>>,
    bgColor: Field<Option<string>>)

  /** The stage a checklist item is grouped under. */
  function StageOf(c: ChecklistItem): string
  {
    c.stage
  }

  /** The rows of one project (`filter(X.project_id == project_id)`). */
  function TaskOfProject(projectId: int): Task -> bool
  {
    (t: Task) => t.projectId == projectId
  }

  function ChecklistOfProject(projectId: int): ChecklistItem -> bool
  {
    (c: ChecklistItem) => c.projectId == projectId
  }

  function TimelineOfProject(projectId: int): TimelineItem -> bool
  {
    (m: TimelineItem) => m.projectId == projectId
  }

  function ActivityOfProject(projectId: int): Activity -> bool
  {
    (a: Activity) => a.projectId == projectId
  }

  function FileOfProject(projectId: int): FileItem -> bool
  {
    (f: FileItem) => f.projectId == projectId
  }

  /** `x ?? fallback` on a nullable string. */
  function OrElse(x: Option<string>, fallback: string): (r: string)
    ensures x.Some? ==> r == x.value
    ensures x.None? ==> r == fallback
  {
    if x.Some? then x.value else fallback
  }
}
