/**
 * The backend's tables and its write routes.  Every table is a sequence
 * of rows in storage order with unique primary keys; a new row gets the key
 * one above the largest.  The upload directory is the set of paths that
 * exist on disk.  Each successful write adds one row to the activity log;
 * a route that fails changes nothing.
 */
module Db {
  import opened Common
  import opened Text
  import opened Entities
  import opened DbQueries
  import opened Patches

  function ClientIdOf(c: Client): int { c.id }

  /** The body FastAPI answers with when the commit raises (a NOT NULL column written as null). */
  const ServerError: string := "Internal Server Error"

  /** The activity row a write adds: the next key, stamped with the current time. */
  function LogEntry(log: seq<Activity>, projectId: int, now: int, actor: string, verb: string, detail: Option<string>): Activity
  {
    Activity(NextId(log, ActivityIdOf), projectId, now, actor, verb, detail)
  }

  /** The body of `POST /tasks` (`TaskCreate`); a field with a default that the body leaves out is `Unset`. */
  datatype TaskCreate = TaskCreate(
    projectId: int,
    title: string,
    status: Field<string>,
    assignee: Field<string>,
    dueDate: Option<int>,
    priority: Field<string>,
    tags: Option<string>,
    description: Option<string>)

  /** The body of `POST /projects` (`ProjectCreate`). */
  datatype ProjectCreate = ProjectCreate(
    title: string,
    transactionType: string,
    location: string,
    status: Field<string>,
    risk: Field<string>,
    bgColor: Field<string>,
    clientId: int)

  /** A field with a schema default. */
  function OrDefault(f: Field<string>, default: string): string
  {
    if f.Set? then f.value else default
  }

  /** `Task(**payload.model_dump())` under the key the insert gets. */
  function NewTask(id: int, body: TaskCreate): Task
  {
    Task(id, body.projectId, body.title,
      OrDefault(body.status, "Backlog"),
      OrDefault(body.assignee, "Ana López"),
      body.dueDate,
      OrDefault(body.priority, "Medium"),
      body.tags, body.description)
  }

  /** The new task keeps what the body sends and takes Backlog, "Ana López" and Medium for what it leaves out. */
  lemma NewTaskMeaning(id: int, body: TaskCreate)
    ensures var t := NewTask(id, body);
      && t.id == id && t.projectId == body.projectId && t.title == body.title
      && t.dueDate == body.dueDate && t.tags == body.tags && t.description == body.description
      && t.status == (if body.status.Set? then body.status.value else "Backlog")
      && t.assignee == (if body.assignee.Set? then body.assignee.value else "Ana López")
      && t.priority == (if body.priority.Set? then body.priority.value else "Medium")
  {
  }

  /** `Project(**payload.model_dump())`, its client the row with that key (none when absent). */
  function NewProject(id: int, body: ProjectCreate, clients: seq<Client>): Project
  {
    Project(id, body.title, body.transactionType, body.location,
      OrDefault(body.status, "Intake"),
      OrDefault(body.risk, "Normal"),
      OrDefault(body.bgColor, "#0b1220"),
      None, None, Some(body.clientId), Get(clients, ClientIdOf, body.clientId))
  }

  /** Defaults Intake, Normal and "#0b1220"; no start or target date; the client is looked up by key. */
  lemma NewProjectMeaning(id: int, body: ProjectCreate, clients: seq<Client>)
    ensures var p := NewProject(id, body, clients);
      && p.id == id && p.title == body.title && p.transactionType == body.transactionType && p.location == body.location
      && p.status == (if body.status.Set? then body.status.value else "Intake")
      && p.risk == (if body.risk.Set? then body.risk.value else "Normal")
      && p.bgColor == (if body.bgColor.Set? then body.bgColor.value else "#0b1220")
      && p.startDate.None? && p.targetCloseDate.None? && p.clientId == Some(body.clientId)
      && (p.client.Some? ==> p.client.value in clients && p.client.value.id == body.clientId)
      && (p.client.None? <==> forall c :: c in clients ==> c.id != body.clientId)
  {
  }

  /** `ProjectDetail`: the project with its related rows, in storage order. */
  datatype ProjectDetail = ProjectDetail(
    project: Project,
    tasks: seq<Task>,
    checklistItems: seq<ChecklistItem>,
    timelineItems: seq<TimelineItem>,
    activities: seq<Activity>)

  /** `get_project`. */
  function GetProject(
    projects: seq<Project>, tasks: seq<Task>, checklist: seq<ChecklistItem>,
    timeline: seq<TimelineItem>, activities: seq<Activity>, projectId: int): Result<ProjectDetail>
  {
    var p := Get(projects, ProjectIdOf, projectId);
    if p.None? then Err(404, "Project not found")
    else Ok(ProjectDetail(p.value,
      Filter(tasks, TaskOfProject(projectId)),
      Filter(checklist, ChecklistOfProject(projectId)),
      Filter(timeline, TimelineOfProject(projectId)),
      Filter(activities, ActivityOfProject(projectId))))
  }

  /**
   * An unknown key gives 404; otherwise the answer is the row with that
   * key (the only one, keys being unique) with exactly that project's
   * tasks, checklist items, timeline items and activities.
   */
  lemma GetProjectMeaning(
    projects: seq<Project>, tasks: seq<Task>, checklist: seq<ChecklistItem>,
    timeline: seq<TimelineItem>, activities: seq<Activity>, projectId: int)
    requires UniqueIds(projects, ProjectIdOf)
    ensures var r := GetProject(projects, tasks, checklist, timeline, activities, projectId);
      && (r.Err? <==> forall p :: p in projects ==> p.id != projectId)
      && (r.Err? ==> r == Err(404, "Project not found"))
      && (r.Ok? ==>
        && r.value.project.id == projectId
        && r.value.project == projects[Locate(projects, ProjectIdOf, projectId)]
        && (forall i :: 0 <= i < |projects| && projects[i].id == projectId ==> projects[i] == r.value.project)
        && (forall t :: t in r.value.tasks <==> t in tasks && t.projectId == projectId)
        && (forall c :: c in r.value.checklistItems <==> c in checklist && c.projectId == projectId)
        && (forall m :: m in r.value.timelineItems <==> m in timeline && m.projectId == projectId)
        && (forall a :: a in r.value.activities <==> a in activities && a.projectId == projectId))
  {
    var r := GetProject(projects, tasks, checklist, timeline, activities, projectId);
    if r.Ok? {
      FilterMembers(tasks, TaskOfProject(projectId));
      FilterMembers(checklist, ChecklistOfProject(projectId));
      FilterMembers(timeline, TimelineOfProject(projectId));
      FilterMembers(activities, ActivityOfProject(projectId));
      forall i | 0 <= i < |projects| && projects[i].id == projectId
        ensures projects[i] == r.value.project
      {
        LocateUnique(projects, ProjectIdOf, projectId, i);
      }
    }
  }

  /**
   * A text form field declared with a default: FastAPI hands the route the
   * default when the field is missing or sent as the empty string.
   */
  function FormOrDefault(field: Option<string>, default: string): (r: string)
    ensures field.None? || field.value == "" ==> r == default
    ensures field.Some? && field.value != "" ==> r == field.value
    ensures default != "" ==> r != ""
  {
    if field.Some? && field.value != "" then field.value else default
  }

  /** `filename.replace("/", "_").replace("\\", "_")`: the name an upload is stored under. */
  function UploadName(filename: string): string
  {
    ReplaceAll(ReplaceAll(filename, "/", "_"), "\\", "_")
  }

  /** `UPLOAD_DIR / f"{project_id}__{safe_name}"` as `str` prints it. */
  function UploadPath(projectId: int, safe: string): string
  {
    "uploads/" + IntToString(projectId) + "__" + safe
  }

  /** One character replaced by one character: same length, the rest kept. */
  lemma {:induction false} ReplaceCharByChar(s: string, c: char, d: char)
    ensures |ReplaceChar(s, c, [d])| == |s|
    ensures forall i :: 0 <= i < |s| ==> ReplaceChar(s, c, [d])[i] == if s[i] == c then d else s[i]
  {
    if s != [] {
      ReplaceCharByChar(s[1..], c, d);
    }
  }

  /**
   * The upload name has the name's length and characters, with every "/"
   * and "\" turned into "_"; so it holds no separator but keeps any "..".
   */
  lemma UploadNameMeaning(filename: string)
    ensures var safe := UploadName(filename);
      && |safe| == |filename|
      && (forall i :: 0 <= i < |safe| ==> safe[i] == if filename[i] == '/' || filename[i] == '\\' then '_' else filename[i])
      && '/' !in safe && '\\' !in safe
  {
    var s1 := ReplaceAll(filename, "/", "_");
    ReplaceAllSingle(filename, '/', "_");
    ReplaceCharByChar(filename, '/', '_');
    ReplaceAllSingle(s1, '\\', "_");
    ReplaceCharByChar(s1, '\\', '_');
  }

  /** Unlike `get_safe_filename`, the upload route leaves ".." in a name. */
  lemma UploadNameKeepsDots()
    ensures UploadName("../a") == ".._a"
  {
    UploadNameMeaning("../a");
  }

  lemma NoSeparatorInNumber(n: int)
    ensures '/' !in IntToString(n) && '\\' !in IntToString(n) && '_' !in IntToString(n)
  {
    var s := IntToString(n);
    if n >= 0 {
      assert forall i :: 0 <= i < |s| ==> '0' <= s[i] <= '9';
    } else {
      var d := NatToString(-n);
      assert s == "-" + d;
      assert forall i :: 0 <= i < |d| ==> '0' <= d[i] <= '9';
    }
  }

  /** The first "_" after a part without one is where the part ends. */
  lemma MarkerAt(a: string, rest: string)
    requires '_' !in a
    ensures IndexOf(a + "__" + rest, "_", 0) == |a|
  {
    var x := a + "__" + rest;
    assert x[|a|..|a| + 1] == "_";
    assert OccursAt(x, "_", |a|);
    forall j | 0 <= j < |a|
      ensures !OccursAt(x, "_", j)
    {
      assert x[j..j + 1] == [a[j]];
    }
    var r := IndexOf(x, "_", 0);
    assert r != -1 && !(r < |a|) && !(|a| < r);
  }

  /** A part without "_" followed by "__" splits back into the part and what follows. */
  lemma SplitAtMarker(a: string, s1: string, b: string, s2: string)
    requires '_' !in a && '_' !in b
    requires a + "__" + s1 == b + "__" + s2
    ensures a == b && s1 == s2
  {
    var x := a + "__" + s1;
    MarkerAt(a, s1);
    MarkerAt(b, s2);
    assert a == x[..|a|] && b == x[..|b|];
    assert s1 == x[|a| + 2..] && s2 == x[|b| + 2..];
  }

  /**
   * Every upload lands directly in the upload directory (no separator after
   * "uploads/"), and two uploads share a path exactly when they have the same
   * project and the same upload name: a later one overwrites the earlier file.
   */
  lemma UploadPathMeaning(p1: int, s1: string, p2: int, s2: string)
    requires '/' !in s1
    ensures var path := UploadPath(p1, s1);
      path[..8] == "uploads/" && '/' !in path[8..]
    ensures UploadPath(p1, s1) == UploadPath(p2, s2) <==> p1 == p2 && s1 == s2
  {
    var a, b := IntToString(p1), IntToString(p2);
    NoSeparatorInNumber(p1);
    NoSeparatorInNumber(p2);
    var x, y := UploadPath(p1, s1), UploadPath(p2, s2);
    assert x[8..] == a + "__" + s1;
    if x == y {
      assert x[8..] == y[8..];
      assert y[8..] == b + "__" + s2;
      SplitAtMarker(a, s1, b, s2);
      IntToStringInjective(p1, p2);
    }
  }

  /** What `download` answers with: the file's path, the name to save it as, and the media type. */
  datatype FileDownload = FileDownload(path: string, filename: string, mediaType: string)

  const NoContent: string := "File content not available (seed metadata only). Upload a real file to preview/download."

  /** `item.mime_type or "application/octet-stream"`: a missing or empty type falls back. */
  function MediaType(mime: Option<string>): string
  {
    if mime.Some? && mime.value != "" then mime.value else "application/octet-stream"
  }

  /** `download`. */
  function Download(files: seq<FileItem>, onDisk: set<string>, fileId: int): Result<FileDownload>
  {
    var f := Get(files, FileIdOf, fileId);
    if f.None? then Err(404, "File not found")
    else if f.value.storedPath !in onDisk then Err(404, NoContent)
    else Ok(FileDownload(f.value.storedPath, f.value.filename, MediaType(f.value.mimeType)))
  }

  /**
   * 404 for an unknown key, 404 for a row whose file is not on disk (as
   * for every seeded row), otherwise the row's file under the row's name,
   * typed by its MIME type or as an octet stream.
   */
  lemma DownloadMeaning(files: seq<FileItem>, onDisk: set<string>, fileId: int)
    ensures var r := Download(files, onDisk, fileId);
      && ((forall f :: f in files ==> f.id != fileId) <==> r == Err(404, "File not found"))
      && (r.Ok? ==> exists f :: (f in files && f.id == fileId && f.storedPath in onDisk
            && r.value == FileDownload(f.storedPath, f.filename, MediaType(f.mimeType))))
      && (r.Err? ==> r.status == 404)
      && (r.Ok? ==> r.value.mediaType != "")
  {
    var r := Download(files, onDisk, fileId);
    if r.Ok? {
      var f := Get(files, FileIdOf, fileId).value;
      assert f in files && f.id == fileId;
    }
    assert NoContent != "File not found";
  }

  /** The tables and the upload directory. */
  class Database {
    var clients: seq<Client>
    var projects: seq<Project>
    var tasks: seq<Task>
    var checklist: seq<ChecklistItem>
    var timeline: seq<TimelineItem>
    var activities: seq<Activity>
    var files: seq<FileItem>
    var onDisk: set<string>

    /** Every table's primary keys are unique. */
    ghost predicate Valid()
      reads this
    {
      && UniqueIds(clients, ClientIdOf)
      && UniqueIds(projects, ProjectIdOf)
      && UniqueIds(tasks, TaskIdOf)
      && UniqueIds(checklist, ChecklistIdOf)
      && UniqueIds(timeline, TimelineIdOf)
      && UniqueIds(activities, ActivityIdOf)
      && UniqueIds(files, FileIdOf)
    }

    /** An empty database with nothing uploaded. */
    constructor ()
      ensures Valid()
      ensures clients == [] && projects == [] && tasks == [] && checklist == []
      ensures timeline == [] && activities == [] && files == [] && onDisk == {}
    {
      clients, projects, tasks, checklist := [], [], [], [];
      timeline, activities, files, onDisk := [], [], [], {};
    }

    /** `db.add(Activity(...))`: one row at the end of the log, every other table as it was. */
    method Log(projectId: int, now: int, actor: string, verb: string, detail: Option<string>)
      requires Valid()
      modifies this
      ensures Valid()
      ensures activities == old(activities) + [LogEntry(old(activities), projectId, now, actor, verb, detail)]
      ensures clients == old(clients) && projects == old(projects) && tasks == old(tasks)
      ensures checklist == old(checklist) && timeline == old(timeline) && files == old(files) && onDisk == old(onDisk)
    {
      var a := LogEntry(activities, projectId, now, actor, verb, detail);
      InsertKeepsUnique(activities, ActivityIdOf, a);
      activities := activities + [a];
    }

    /**
     * `update_task`: 404 for an unknown key; 500 with nothing written when
     * the body nulls a NOT NULL column; otherwise exactly the fields sent
     * are written and one "Updated task" row, carrying the new title, is
     * logged.
     */
    method UpdateTask(taskId: int, u: TaskUpdate, now: int) returns (r: Result<Task>)
      requires Valid()
      modifies this
      ensures Valid()
      ensures Get(old(tasks), TaskIdOf, taskId).None? ==> r == Err(404, "Task not found") && unchanged(this)
      ensures Get(old(tasks), TaskIdOf, taskId).Some? && TaskRefused(u) ==> r == Err(500, ServerError) && unchanged(this)
      ensures Get(old(tasks), TaskIdOf, taskId).Some? && !TaskRefused(u) ==>
        var i := Locate(old(tasks), TaskIdOf, taskId);
        var t := PatchedTask(old(tasks)[i], u);
        && r == Ok(t)
        && tasks == old(tasks)[i := t]
        && activities == old(activities) + [LogEntry(old(activities), t.projectId, now, "Ana López", "Updated task", Some(t.title))]
        && clients == old(clients) && projects == old(projects) && checklist == old(checklist)
        && timeline == old(timeline) && files == old(files) && onDisk == old(onDisk)
    {
      var i := Locate(tasks, TaskIdOf, taskId);
      if i == -1 {
        return Err(404, "Task not found");
      }
      var t, refused := PatchTask(tasks[i], TaskPayload(u));
      TaskPayloadApplied(tasks[i], u);
      TaskPayloadRefused(u);
      if refused {
        return Err(500, ServerError);
      }
      ReplaceKeepsUnique(tasks, TaskIdOf, i, t);
      tasks := tasks[i := t];
      Log(t.projectId, now, "Ana López", "Updated task", Some(t.title));
      return Ok(t);
    }

    /** `create_task`: the new task under the next key, logged as "Created task" by its assignee. */
    method CreateTask(body: TaskCreate, now: int) returns (t: Task)
      requires Valid()
      modifies this
      ensures Valid()
      ensures t == NewTask(NextId(old(tasks), TaskIdOf), body)
      ensures forall x :: x in old(tasks) ==> x.id < t.id
      ensures tasks == old(tasks) + [t]
      ensures activities == old(activities) + [LogEntry(old(activities), body.projectId, now, t.assignee, "Created task", Some(body.title))]
      ensures clients == old(clients) && projects == old(projects) && checklist == old(checklist)
      ensures timeline == old(timeline) && files == old(files) && onDisk == old(onDisk)
    {
      t := NewTask(NextId(tasks, TaskIdOf), body);
      InsertKeepsUnique(tasks, TaskIdOf, t);
      tasks := tasks + [t];
      Log(t.projectId, now, t.assignee, "Created task", Some(t.title));
    }

    /** `create_project`: the new project under the next key, logged under project 0 by "System". */
    method CreateProject(body: ProjectCreate, now: int) returns (p: Project)
      requires Valid()
      modifies this
      ensures Valid()
      ensures p == NewProject(NextId(old(projects), ProjectIdOf), body, old(clients))
      ensures forall x :: x in old(projects) ==> x.id < p.id
      ensures projects == old(projects) + [p]
      ensures activities == old(activities) + [LogEntry(old(activities), 0, now, "System", "Created project", Some(body.title))]
      ensures clients == old(clients) && tasks == old(tasks) && checklist == old(checklist)
      ensures timeline == old(timeline) && files == old(files) && onDisk == old(onDisk)
    {
      p := NewProject(NextId(projects, ProjectIdOf), body, clients);
      InsertKeepsUnique(projects, ProjectIdOf, p);
      projects := projects + [p];
      Log(0, now, "System", "Created project", Some(p.title));
    }

    /**
     * `update_project`: 404 for an unknown key; 500 with nothing written
     * for a null in a NOT NULL column; otherwise exactly the fields sent are
     * written and an "Updated project" row naming them is logged.
     */
    method UpdateProject(projectId: int, u: ProjectUpdate, now: int) returns (r: Result<Project>)
      requires Valid()
      modifies this
      ensures Valid()
      ensures Get(old(projects), ProjectIdOf, projectId).None? ==> r == Err(404, "Project not found") && unchanged(this)
      ensures Get(old(projects), ProjectIdOf, projectId).Some? && ProjectRefused(u) ==> r == Err(500, ServerError) && unchanged(this)
      ensures Get(old(projects), ProjectIdOf, projectId).Some? && !ProjectRefused(u) ==>
        var i := Locate(old(projects), ProjectIdOf, projectId);
        var p := PatchedProject(old(projects)[i], u);
        && r == Ok(p)
        && projects == old(projects)[i := p]
        && activities == old(activities) + [LogEntry(old(activities), projectId, now, "System", "Updated project",
             Some(UpdateDetail(ProjectPayload(u))))]
        && clients == old(clients) && tasks == old(tasks) && checklist == old(checklist)
        && timeline == old(timeline) && files == old(files) && onDisk == old(onDisk)
    {
      var i := Locate(projects, ProjectIdOf, projectId);
      if i == -1 {
        return Err(404, "Project not found");
      }
      var attrs := ProjectPayload(u);
      var p, refused := PatchProject(projects[i], attrs);
      ProjectPayloadApplied(projects[i], u);
      ProjectPayloadRefused(u);
      if refused {
        return Err(500, ServerError);
      }
      ReplaceKeepsUnique(projects, ProjectIdOf, i, p);
      projects := projects[i := p];
      Log(p.id, now, "System", "Updated project", Some(UpdateDetail(attrs)));
      return Ok(p);
    }

    /**
     * `toggle_item`: 404 for an unknown key; otherwise the item's done flag
     * becomes the payload's (sending the current value writes nothing new)
     * and a "Checklist updated" row carrying the label is logged.
     */
    method ToggleItem(itemId: int, isDone: bool, now: int) returns (r: Result<ChecklistItem>)
      requires Valid()
      modifies this
      ensures Valid()
      ensures Get(old(checklist), ChecklistIdOf, itemId).None? ==> r == Err(404, "Checklist item not found") && unchanged(this)
      ensures Get(old(checklist), ChecklistIdOf, itemId).Some? ==>
        var i := Locate(old(checklist), ChecklistIdOf, itemId);
        var c := old(checklist)[i];
        && r == Ok(c.(isDone := isDone))
        && checklist == old(checklist)[i := c.(isDone := isDone)]
        && (c.isDone == isDone ==> checklist == old(checklist))
        && activities == old(activities) + [LogEntry(old(activities), c.projectId, now, "Ana López", "Checklist updated", Some(c.itemLabel))]
        && clients == old(clients) && projects == old(projects) && tasks == old(tasks)
        && timeline == old(timeline) && files == old(files) && onDisk == old(onDisk)
    {
      var i := Locate(checklist, ChecklistIdOf, itemId);
      if i == -1 {
        return Err(404, "Checklist item not found");
      }
      var c := checklist[i].(isDone := isDone);
      ReplaceKeepsUnique(checklist, ChecklistIdOf, i, c);
      checklist := checklist[i := c];
      Log(c.projectId, now, "Ana López", "Checklist updated", Some(c.itemLabel));
      return Ok(c);
    }

    /**
     * `upload_file`: a missing or empty name gives 400 and nothing happens;
     * otherwise the file is written under the upload path, recorded under
     * the next key with the upload name and content type, and an "Uploaded
     * file" row is logged by the uploader ("Ana López" when the field is
     * missing or sent empty).
     */
    method UploadFile(projectId: int, uploader: Option<string>, filename: Option<string>, contentType: Option<string>, now: int)
      returns (r: Result<FileItem>)
      requires Valid()
      modifies this
      ensures Valid()
      ensures filename.None? || filename.value == "" ==> r == Err(400, "Missing filename") && unchanged(this)
      ensures filename.Some? && filename.value != "" ==>
        var safe := UploadName(filename.value);
        var who := FormOrDefault(uploader, "Ana López");
        var f := FileItem(NextId(old(files), FileIdOf), projectId, safe, UploadPath(projectId, safe), contentType, now, who);
        && r == Ok(f)
        && files == old(files) + [f]
        && onDisk == old(onDisk) + {f.storedPath}
        && activities == old(activities) + [LogEntry(old(activities), projectId, now, who, "Uploaded file", Some(safe))]
        && Download(files, onDisk, f.id) == Ok(FileDownload(f.storedPath, safe, MediaType(contentType)))
        && clients == old(clients) && projects == old(projects) && tasks == old(tasks)
        && checklist == old(checklist) && timeline == old(timeline)
    {
      if filename.None? || filename.value == "" {
        return Err(400, "Missing filename");
      }
      var safe := UploadName(filename.value);
      var dest := UploadPath(projectId, safe);
      onDisk := onDisk + {dest};
      var who := FormOrDefault(uploader, "Ana López");
      var f := FileItem(NextId(files, FileIdOf), projectId, safe, dest, contentType, now, who);
      InsertKeepsUnique(files, FileIdOf, f);
      files := files + [f];
      LocateUnique(files, FileIdOf, f.id, |files| - 1);
      Log(projectId, now, who, "Uploaded file", Some(safe));
      return Ok(f);
    }
  }
}
