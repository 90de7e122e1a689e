/**
 * What a PATCH body does to a stored row.  `model_dump(exclude_unset=True)`
 * yields the fields the client sent, in the schema's declaration order,
 * explicit nulls included; the route then `setattr`s them one by one.  A
 * null written to a NOT NULL column is only refused at commit, so the
 * request fails as a whole.
 */
module Patches {
  import opened Common
  import opened Text
  import opened Entities

  /** One attribute of a task PATCH as the dump yields it. */
  datatype TaskAttr =
    | TaskTitle(text: Option<string>)
    | TaskStatus(text: Option<string>)
    | TaskAssignee(text: Option<string>)
    | TaskDueDate(day: Option<int>)
    | TaskPriority(text: Option<string>)
    | TaskTags(text: Option<string>)
    | TaskDescription(text: Option<string>)

  function TitleAttr(u: TaskUpdate): seq<TaskAttr> { if u.title.Set? then [TaskTitle(u.title.value)] else [] }
  function StatusAttr(u: TaskUpdate): seq<TaskAttr> { if u.status.Set? then [TaskStatus(u.status.value)] else [] }
  function AssigneeAttr(u: TaskUpdate): seq<TaskAttr> { if u.assignee.Set? then [TaskAssignee(u.assignee.value)] else [] }
  function DueDateAttr(u: TaskUpdate): seq<TaskAttr> { if u.dueDate.Set? then [TaskDueDate(u.dueDate.value)] else [] }
  function PriorityAttr(u: TaskUpdate): seq<TaskAttr> { if u.priority.Set? then [TaskPriority(u.priority.value)] else [] }
  function TagsAttr(u: TaskUpdate): seq<TaskAttr> { if u.tags.Set? then [TaskTags(u.tags.value)] else [] }
  function DescriptionAttr(u: TaskUpdate): seq<TaskAttr> { if u.description.Set? then [TaskDescription(u.description.value)] else [] }

  /** `payload.model_dump(exclude_unset=True).items()` for a `TaskUpdate`: the fields sent, in declaration order. */
  function TaskPayload(u: TaskUpdate): seq<TaskAttr>
  {
    TitleAttr(u) + (StatusAttr(u) + (AssigneeAttr(u) + (DueDateAttr(u)
      + (PriorityAttr(u) + (TagsAttr(u) + DescriptionAttr(u))))))
  }

  /** A null for title, status, assignee or priority, which the table declares NOT NULL. */
  predicate TaskNullIntoNotNull(a: TaskAttr)
  {
    !a.TaskDueDate? && !a.TaskTags? && !a.TaskDescription? && a.text.None?
  }

  /**
   * `setattr(t, k, v)`.  A null for a NOT NULL column leaves the row as it
   * is here; the commit refuses it (see `TaskNullIntoNotNull`).
   */
  function SetTaskAttr(t: Task, a: TaskAttr): Task
  {
    match a
    case TaskTitle(v) => if v.Some? then t.(title := v.value) else t
    case TaskStatus(v) => if v.Some? then t.(status := v.value) else t
    case TaskAssignee(v) => if v.Some? then t.(assignee := v.value) else t
    case TaskDueDate(d) => t.(dueDate := d)
    case TaskPriority(v) => if v.Some? then t.(priority := v.value) else t
    case TaskTags(v) => t.(tags := v)
    case TaskDescription(v) => t.(description := v)
  }

  /** The attributes set one after the other, first to last. */
  function ApplyTaskAttrs(t: Task, attrs: seq<TaskAttr>): Task
    decreases |attrs|
  {
    if attrs == [] then t else ApplyTaskAttrs(SetTaskAttr(t, attrs[0]), attrs[1..])
  }

  /** Some attribute writes a null into a NOT NULL column. */
  predicate AnyTaskNull(attrs: seq<TaskAttr>)
  {
    attrs != [] && (TaskNullIntoNotNull(attrs[0]) || AnyTaskNull(attrs[1..]))
  }

  /**
   * The `setattr` loop of `update_task`: the row after every attribute is
   * set, and whether the commit will refuse it.
   */
  method PatchTask(t: Task, attrs: seq<TaskAttr>) returns (patched: Task, refused: bool)
    ensures patched == ApplyTaskAttrs(t, attrs)
    ensures refused == AnyTaskNull(attrs)
  {
    patched, refused := t, false;
    for i := 0 to |attrs|
      invariant ApplyTaskAttrs(patched, attrs[i..]) == ApplyTaskAttrs(t, attrs)
      invariant (refused || AnyTaskNull(attrs[i..])) == AnyTaskNull(attrs)
    {
      assert attrs[i..][1..] == attrs[i + 1..];
      patched := SetTaskAttr(patched, attrs[i]);
      refused := refused || TaskNullIntoNotNull(attrs[i]);
    }
  }

  /** A sent value for a NOT NULL column: the new value, or the old one when none is sent. */
  function Written<T>(f: Field<Option<T>>, current: T): T
  {
    if f.Set? && f.value.Some? then f.value.value else current
  }

  /** A sent value for a nullable column, null included. */
  function WrittenNullable<T>(f: Field<Option<T>>, current: Option<T>): Option<T>
  {
    if f.Set? then f.value else current
  }

  /** The task as the PATCH leaves it, field by field. */
  function PatchedTask(t: Task, u: TaskUpdate): Task
  {
    Task(t.id, t.projectId,
      Written(u.title, t.title),
      Written(u.status, t.status),
      Written(u.assignee, t.assignee),
      WrittenNullable(u.dueDate, t.dueDate),
      Written(u.priority, t.priority),
      WrittenNullable(u.tags, t.tags),
      WrittenNullable(u.description, t.description))
  }

  /** The commit fails: an explicit null for title, status, assignee or priority. */
  predicate TaskRefused(u: TaskUpdate)
  {
    u.title == Set(None) || u.status == Set(None) || u.assignee == Set(None) || u.priority == Set(None)
  }

  /** Setting at most one attribute, then the rest. */
  lemma ApplyTaskStep(t: Task, a: seq<TaskAttr>, rest: seq<TaskAttr>)
    requires |a| <= 1
    ensures ApplyTaskAttrs(t, a + rest) == ApplyTaskAttrs(if a == [] then t else SetTaskAttr(t, a[0]), rest)
    ensures AnyTaskNull(a + rest) == ((a != [] && TaskNullIntoNotNull(a[0])) || AnyTaskNull(rest))
  {
    if a == [] {
      assert a + rest == rest;
    } else {
      assert (a + rest)[1..] == rest;
    }
  }

  lemma TitleStep(t: Task, u: TaskUpdate, rest: seq<TaskAttr>)
    ensures ApplyTaskAttrs(t, TitleAttr(u) + rest) == ApplyTaskAttrs(t.(title := Written(u.title, t.title)), rest)
    ensures AnyTaskNull(TitleAttr(u) + rest) == (u.title == Set(None) || AnyTaskNull(rest))
  {
    ApplyTaskStep(t, TitleAttr(u), rest);
  }

  lemma StatusStep(t: Task, u: TaskUpdate, rest: seq<TaskAttr>)
    ensures ApplyTaskAttrs(t, StatusAttr(u) + rest) == ApplyTaskAttrs(t.(status := Written(u.status, t.status)), rest)
    ensures AnyTaskNull(StatusAttr(u) + rest) == (u.status == Set(None) || AnyTaskNull(rest))
  {
    ApplyTaskStep(t, StatusAttr(u), rest);
  }

  lemma AssigneeStep(t: Task, u: TaskUpdate, rest: seq<TaskAttr>)
    ensures ApplyTaskAttrs(t, AssigneeAttr(u) + rest) == ApplyTaskAttrs(t.(assignee := Written(u.assignee, t.assignee)), rest)
    ensures AnyTaskNull(AssigneeAttr(u) + rest) == (u.assignee == Set(None) || AnyTaskNull(rest))
  {
    ApplyTaskStep(t, AssigneeAttr(u), rest);
  }

  lemma DueDateStep(t: Task, u: TaskUpdate, rest: seq<TaskAttr>)
    ensures ApplyTaskAttrs(t, DueDateAttr(u) + rest) == ApplyTaskAttrs(t.(dueDate := WrittenNullable(u.dueDate, t.dueDate)), rest)
    ensures AnyTaskNull(DueDateAttr(u) + rest) == AnyTaskNull(rest)
  {
    ApplyTaskStep(t, DueDateAttr(u), rest);
  }

  lemma PriorityStep(t: Task, u: TaskUpdate, rest: seq<TaskAttr>)
    ensures ApplyTaskAttrs(t, PriorityAttr(u) + rest) == ApplyTaskAttrs(t.(priority := Written(u.priority, t.priority)), rest)
    ensures AnyTaskNull(PriorityAttr(u) + rest) == (u.priority == Set(None) || AnyTaskNull(rest))
  {
    ApplyTaskStep(t, PriorityAttr(u), rest);
  }

  lemma TagsStep(t: Task, u: TaskUpdate, rest: seq<TaskAttr>)
    ensures ApplyTaskAttrs(t, TagsAttr(u) + rest) == ApplyTaskAttrs(t.(tags := WrittenNullable(u.tags, t.tags)), rest)
    ensures AnyTaskNull(TagsAttr(u) + rest) == AnyTaskNull(rest)
  {
    ApplyTaskStep(t, TagsAttr(u), rest);
  }

  lemma DescriptionStep(t: Task, u: TaskUpdate, rest: seq<TaskAttr>)
    ensures ApplyTaskAttrs(t, DescriptionAttr(u) + rest) == ApplyTaskAttrs(t.(description := WrittenNullable(u.description, t.description)), rest)
    ensures AnyTaskNull(DescriptionAttr(u) + rest) == AnyTaskNull(rest)
  {
    ApplyTaskStep(t, DescriptionAttr(u), rest);
  }

  /**
   * Setting the dumped attributes one by one leaves the task as
   * `PatchedTask` describes.
   */
  lemma TaskPayloadApplied(t: Task, u: TaskUpdate)
    ensures ApplyTaskAttrs(t, TaskPayload(u)) == PatchedTask(t, u)
  {
    var r6 := DescriptionAttr(u);
    var r5 := TagsAttr(u) + r6;
    var r4 := PriorityAttr(u) + r5;
    var r3 := DueDateAttr(u) + r4;
    var r2 := AssigneeAttr(u) + r3;
    var r1 := StatusAttr(u) + r2;
    var t1 := t.(title := Written(u.title, t.title));
    var t2 := t1.(status := Written(u.status, t.status));
    var t3 := t2.(assignee := Written(u.assignee, t.assignee));
    var t4 := t3.(dueDate := WrittenNullable(u.dueDate, t.dueDate));
    var t5 := t4.(priority := Written(u.priority, t.priority));
    var t6 := t5.(tags := WrittenNullable(u.tags, t.tags));
    TitleStep(t, u, r1);
    StatusStep(t1, u, r2);
    AssigneeStep(t2, u, r3);
    DueDateStep(t3, u, r4);
    PriorityStep(t4, u, r5);
    TagsStep(t5, u, r6);
    assert r6 == r6 + [];
    DescriptionStep(t6, u, []);
  }

  /** The commit fails exactly for a null in a NOT NULL column. */
  lemma TaskPayloadRefused(u: TaskUpdate)
    ensures AnyTaskNull(TaskPayload(u)) == TaskRefused(u)
  {
    var t := Task(0, 0, "", "", "", None, "", None, None);
    var r6 := DescriptionAttr(u);
    var r5 := TagsAttr(u) + r6;
    var r4 := PriorityAttr(u) + r5;
    var r3 := DueDateAttr(u) + r4;
    var r2 := AssigneeAttr(u) + r3;
    var r1 := StatusAttr(u) + r2;
    TitleStep(t, u, r1);
    StatusStep(t, u, r2);
    AssigneeStep(t, u, r3);
    DueDateStep(t, u, r4);
    PriorityStep(t, u, r5);
    TagsStep(t, u, r6);
    assert r6 == r6 + [];
    DescriptionStep(t, u, []);
  }

  /**
   * Exactly the fields sent are written, explicit nulls of nullable fields
   * included; every other field, the key and the project keep their values.
   */
  lemma PatchedTaskMeaning(t: Task, u: TaskUpdate)
    requires !TaskRefused(u)
    ensures var p := PatchedTask(t, u);
      && p.id == t.id && p.projectId == t.projectId
      && (u.title.Set? ==> p.title == u.title.value.value) && (u.title.Unset? ==> p.title == t.title)
      && (u.status.Set? ==> p.status == u.status.value.value) && (u.status.Unset? ==> p.status == t.status)
      && (u.assignee.Set? ==> p.assignee == u.assignee.value.value) && (u.assignee.Unset? ==> p.assignee == t.assignee)
      && (u.priority.Set? ==> p.priority == u.priority.value.value) && (u.priority.Unset? ==> p.priority == t.priority)
      && (u.dueDate.Set? ==> p.dueDate == u.dueDate.value) && (u.dueDate.Unset? ==> p.dueDate == t.dueDate)
      && (u.tags.Set? ==> p.tags == u.tags.value) && (u.tags.Unset? ==> p.tags == t.tags)
      && (u.description.Set? ==> p.description == u.description.value) && (u.description.Unset? ==> p.description == t.description)
    ensures u == NoTaskChanges ==> PatchedTask(t, u) == t
  {
  }

  /** One attribute of a project PATCH as the dump yields it. */
  datatype ProjectAttr =
    | ProjectTitle(text: Option<string>)
    | ProjectStatus(text: Option<string>)
    | ProjectRisk(text: Option<string>)
    | ProjectTargetClose(day: Option<int>)
    | ProjectBgColor(text: Option<string>)

  function ProjectTitleAttr(u: ProjectUpdate): seq<ProjectAttr> { if u.title.Set? then [ProjectTitle(u.title.value)] else [] }
  function ProjectStatusAttr(u: ProjectUpdate): seq<ProjectAttr> { if u.status.Set? then [ProjectStatus(u.status.value)] else [] }
  function RiskAttr(u: ProjectUpdate): seq<ProjectAttr> { if u.risk.Set? then [ProjectRisk(u.risk.value)] else [] }
  function TargetCloseAttr(u: ProjectUpdate): seq<ProjectAttr> { if u.targetCloseDate.Set? then [ProjectTargetClose(u.targetCloseDate.value)] else [] }
  function BgColorAttr(u: ProjectUpdate): seq<ProjectAttr> { if u.bgColor.Set? then [ProjectBgColor(u.bgColor.value)] else [] }

  /** `payload.model_dump(exclude_unset=True).items()` for a `ProjectUpdate`. */
  function ProjectPayload(u: ProjectUpdate): seq<ProjectAttr>
  {
    ProjectTitleAttr(u) + (ProjectStatusAttr(u) + (RiskAttr(u) + (TargetCloseAttr(u) + BgColorAttr(u))))
  }

  /** The key of the attribute in the dumped dictionary. */
  function ProjectAttrName(a: ProjectAttr): string
  {
    match a
    case ProjectTitle(_) => "title"
    case ProjectStatus(_) => "status"
    case ProjectRisk(_) => "risk"
    case ProjectTargetClose(_) => "target_close_date"
    case ProjectBgColor(_) => "bg_color"
  }

  /** A null for title, status, risk or background colour, all NOT NULL. */
  predicate ProjectNullIntoNotNull(a: ProjectAttr)
  {
    !a.ProjectTargetClose? && a.text.None?
  }

  /** `setattr(p, k, v)` on a project. */
  function SetProjectAttr(p: Project, a: ProjectAttr): Project
  {
    match a
    case ProjectTitle(v) => if v.Some? then p.(title := v.value) else p
    case ProjectStatus(v) => if v.Some? then p.(status := v.value) else p
    case ProjectRisk(v) => if v.Some? then p.(risk := v.value) else p
    case ProjectTargetClose(d) => p.(targetCloseDate := d)
    case ProjectBgColor(v) => if v.Some? then p.(bgColor := v.value) else p
  }

  function ApplyProjectAttrs(p: Project, attrs: seq<ProjectAttr>): Project
    decreases |attrs|
  {
    if attrs == [] then p else ApplyProjectAttrs(SetProjectAttr(p, attrs[0]), attrs[1..])
  }

  predicate AnyProjectNull(attrs: seq<ProjectAttr>)
  {
    attrs != [] && (ProjectNullIntoNotNull(attrs[0]) || AnyProjectNull(attrs[1..]))
  }

  /** The `setattr` loop of `update_project`. */
  method PatchProject(p: Project, attrs: seq<ProjectAttr>) returns (patched: Project, refused: bool)
    ensures patched == ApplyProjectAttrs(p, attrs)
    ensures refused == AnyProjectNull(attrs)
  {
    patched, refused := p, false;
    for i := 0 to |attrs|
      invariant ApplyProjectAttrs(patched, attrs[i..]) == ApplyProjectAttrs(p, attrs)
      invariant (refused || AnyProjectNull(attrs[i..])) == AnyProjectNull(attrs)
    {
      assert attrs[i..][1..] == attrs[i + 1..];
      patched := SetProjectAttr(patched, attrs[i]);
      refused := refused || ProjectNullIntoNotNull(attrs[i]);
    }
  }

  /** The project as the PATCH leaves it, field by field. */
  function PatchedProject(p: Project, u: ProjectUpdate): Project
  {
    p.(title := Written(u.title, p.title),
       status := Written(u.status, p.status),
       risk := Written(u.risk, p.risk),
       targetCloseDate := WrittenNullable(u.targetCloseDate, p.targetCloseDate),
       bgColor := Written(u.bgColor, p.bgColor))
  }

  predicate ProjectRefused(u: ProjectUpdate)
  {
    u.title == Set(None) || u.status == Set(None) || u.risk == Set(None) || u.bgColor == Set(None)
  }

  lemma ApplyProjectStep(p: Project, a: seq<ProjectAttr>, rest: seq<ProjectAttr>)
    requires |a| <= 1
    ensures ApplyProjectAttrs(p, a + rest) == ApplyProjectAttrs(if a == [] then p else SetProjectAttr(p, a[0]), rest)
    ensures AnyProjectNull(a + rest) == ((a != [] && ProjectNullIntoNotNull(a[0])) || AnyProjectNull(rest))
  {
    if a == [] {
      assert a + rest == rest;
    } else {
      assert (a + rest)[1..] == rest;
    }
  }

  lemma ProjectTitleStep(p: Project, u: ProjectUpdate, rest: seq<ProjectAttr>)
    ensures ApplyProjectAttrs(p, ProjectTitleAttr(u) + rest) == ApplyProjectAttrs(p.(title := Written(u.title, p.title)), rest)
    ensures AnyProjectNull(ProjectTitleAttr(u) + rest) == (u.title == Set(None) || AnyProjectNull(rest))
  {
    ApplyProjectStep(p, ProjectTitleAttr(u), rest);
  }

  lemma ProjectStatusStep(p: Project, u: ProjectUpdate, rest: seq<ProjectAttr>)
    ensures ApplyProjectAttrs(p, ProjectStatusAttr(u) + rest) == ApplyProjectAttrs(p.(status := Written(u.status, p.status)), rest)
    ensures AnyProjectNull(ProjectStatusAttr(u) + rest) == (u.status == Set(None) || AnyProjectNull(rest))
  {
    ApplyProjectStep(p, ProjectStatusAttr(u), rest);
  }

  lemma RiskStep(p: Project, u: ProjectUpdate, rest: seq<ProjectAttr>)
    ensures ApplyProjectAttrs(p, RiskAttr(u) + rest) == ApplyProjectAttrs(p.(risk := Written(u.risk, p.risk)), rest)
    ensures AnyProjectNull(RiskAttr(u) + rest) == (u.risk == Set(None) || AnyProjectNull(rest))
  {
    ApplyProjectStep(p, RiskAttr(u), rest);
  }

  lemma TargetCloseStep(p: Project, u: ProjectUpdate, rest: seq<ProjectAttr>)
    ensures ApplyProjectAttrs(p, TargetCloseAttr(u) + rest) == ApplyProjectAttrs(p.(targetCloseDate := WrittenNullable(u.targetCloseDate, p.targetCloseDate)), rest)
    ensures AnyProjectNull(TargetCloseAttr(u) + rest) == AnyProjectNull(rest)
  {
    ApplyProjectStep(p, TargetCloseAttr(u), rest);
  }

  lemma BgColorStep(p: Project, u: ProjectUpdate, rest: seq<ProjectAttr>)
    ensures ApplyProjectAttrs(p, BgColorAttr(u) + rest) == ApplyProjectAttrs(p.(bgColor := Written(u.bgColor, p.bgColor)), rest)
    ensures AnyProjectNull(BgColorAttr(u) + rest) == (u.bgColor == Set(None) || AnyProjectNull(rest))
  {
    ApplyProjectStep(p, BgColorAttr(u), rest);
  }

  /** The `setattr` loop leaves the project as `PatchedProject` says. */
  lemma ProjectPayloadApplied(p: Project, u: ProjectUpdate)
    ensures ApplyProjectAttrs(p, ProjectPayload(u)) == PatchedProject(p, u)
  {
    var r4 := BgColorAttr(u);
    var r3 := TargetCloseAttr(u) + r4;
    var r2 := RiskAttr(u) + r3;
    var r1 := ProjectStatusAttr(u) + r2;
    var p1 := p.(title := Written(u.title, p.title));
    var p2 := p1.(status := Written(u.status, p.status));
    var p3 := p2.(risk := Written(u.risk, p.risk));
    var p4 := p3.(targetCloseDate := WrittenNullable(u.targetCloseDate, p.targetCloseDate));
    ProjectTitleStep(p, u, r1);
    ProjectStatusStep(p1, u, r2);
    RiskStep(p2, u, r3);
    TargetCloseStep(p3, u, r4);
    assert r4 == r4 + [];
    BgColorStep(p4, u, []);
  }

  /** The commit fails exactly for a null in a NOT NULL column. */
  lemma ProjectPayloadRefused(u: ProjectUpdate)
    ensures AnyProjectNull(ProjectPayload(u)) == ProjectRefused(u)
  {
    var p := Project(0, "", "", "", "", "", "", None, None, None, None);
    var r4 := BgColorAttr(u);
    var r3 := TargetCloseAttr(u) + r4;
    var r2 := RiskAttr(u) + r3;
    var r1 := ProjectStatusAttr(u) + r2;
    ProjectTitleStep(p, u, r1);
    ProjectStatusStep(p, u, r2);
    RiskStep(p, u, r3);
    TargetCloseStep(p, u, r4);
    assert r4 == r4 + [];
    BgColorStep(p, u, []);
  }

  /** Exactly the fields sent are written; key, client and start date never change. */
  lemma PatchedProjectMeaning(p: Project, u: ProjectUpdate)
    requires !ProjectRefused(u)
    ensures var q := PatchedProject(p, u);
      && q.id == p.id && q.clientId == p.clientId && q.client == p.client && q.startDate == p.startDate
      && q.transactionType == p.transactionType && q.location == p.location
      && (u.title.Set? ==> q.title == u.title.value.value) && (u.title.Unset? ==> q.title == p.title)
      && (u.status.Set? ==> q.status == u.status.value.value) && (u.status.Unset? ==> q.status == p.status)
      && (u.risk.Set? ==> q.risk == u.risk.value.value) && (u.risk.Unset? ==> q.risk == p.risk)
      && (u.targetCloseDate.Set? ==> q.targetCloseDate == u.targetCloseDate.value)
      && (u.targetCloseDate.Unset? ==> q.targetCloseDate == p.targetCloseDate)
      && (u.bgColor.Set? ==> q.bgColor == u.bgColor.value.value) && (u.bgColor.Unset? ==> q.bgColor == p.bgColor)
  {
  }

  /** `", ".join(data.keys()) or "—"`: the names of the fields sent, or a dash when none is. */
  function UpdateDetail(attrs: seq<ProjectAttr>): string
  {
    var joined := Join(Map(attrs, ProjectAttrName), ", ");
    if joined == "" then "—" else joined
  }

  /** A join starts with its first part. */
  lemma JoinStartsWith(parts: seq<string>, sep: string)
    requires parts != []
    ensures |Join(parts, sep)| >= |parts[0]| && Join(parts, sep)[..|parts[0]|] == parts[0]
  {
    if |parts| > 1 {
      assert Join(parts, sep) == parts[0] + (sep + Join(parts[1..], sep));
    }
  }

  /** The detail is the dash exactly when no field was sent: every field name is longer than the dash. */
  lemma UpdateDetailDash(attrs: seq<ProjectAttr>)
    ensures UpdateDetail(attrs) == "—" <==> attrs == []
  {
    if attrs != [] {
      var names := Map(attrs, ProjectAttrName);
      JoinStartsWith(names, ", ");
      assert |names[0]| >= 4;
    }
  }

  /** Nothing is dumped exactly when no field was sent. */
  lemma ProjectPayloadEmpty(u: ProjectUpdate)
    ensures ProjectPayload(u) == [] <==>
      u.title.Unset? && u.status.Unset? && u.risk.Unset? && u.targetCloseDate.Unset? && u.bgColor.Unset?
  {
    if u.title.Set? {
      assert ProjectPayload(u)[0] == ProjectTitle(u.title.value);
    } else if u.status.Set? {
      assert ProjectPayload(u)[0] == ProjectStatus(u.status.value);
    } else if u.risk.Set? {
      assert ProjectPayload(u)[0] == ProjectRisk(u.risk.value);
    } else if u.targetCloseDate.Set? {
      assert ProjectPayload(u)[0] == ProjectTargetClose(u.targetCloseDate.value);
    }
  }

  /** The `update_project` detail is the dash exactly when the body sends no field. */
  lemma UpdateDetailMeaning(u: ProjectUpdate)
    ensures UpdateDetail(ProjectPayload(u)) == "—" <==>
      u.title.Unset? && u.status.Unset? && u.risk.Unset? && u.targetCloseDate.Unset? && u.bgColor.Unset?
  {
    UpdateDetailDash(ProjectPayload(u));
    ProjectPayloadEmpty(u);
  }

  /** A title alone is logged as "title". */
  lemma UpdateDetailTitleOnly(u: ProjectUpdate)
    requires u.title.Set? && u.status.Unset? && u.risk.Unset? && u.targetCloseDate.Unset? && u.bgColor.Unset?
    ensures UpdateDetail(ProjectPayload(u)) == "title"
  {
    assert ProjectPayload(u) == [ProjectTitle(u.title.value)];
    assert Map(ProjectPayload(u), ProjectAttrName) == ["title"];
  }

  /** A body with every field is logged with all five names in declaration order. */
  lemma UpdateDetailAllFields(u: ProjectUpdate)
    requires u.title.Set? && u.status.Set? && u.risk.Set? && u.targetCloseDate.Set? && u.bgColor.Set?
    ensures UpdateDetail(ProjectPayload(u)) == Join(["title", "status", "risk", "target_close_date", "bg_color"], ", ")
  {
    var attrs := ProjectPayload(u);
    assert attrs == [ProjectTitle(u.title.value), ProjectStatus(u.status.value), ProjectRisk(u.risk.value),
      ProjectTargetClose(u.targetCloseDate.value), ProjectBgColor(u.bgColor.value)];
    var names := Map(attrs, ProjectAttrName);
    assert names == ["title", "status", "risk", "target_close_date", "bg_color"];
    UpdateDetailDash(attrs);
  }
}
