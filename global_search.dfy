/**
 * The global search dialog (Ctrl+K): one query matched against the matter's
 * tasks, files and checklist items, hits listed task first, then file, then
 * checklist, at most 24 of them.
 */
module GlobalSearch {
  import opened Common
  import opened Text
  import opened Entities
  import opened Dates
  import App

  const MaxHits: nat := 24

  /** The views a hit can navigate to. */
  datatype View = Board | Table | Timeline | Calendar | Files | Templates | ClosingPack

  datatype Kind = TaskKind | FileKind | ChecklistKind

  function KindName(k: Kind): string
  {
    match k
    case TaskKind => "Task"
    case FileKind => "File"
    case ChecklistKind => "Checklist"
  }

  /** Position of a kind in the result list. */
  function Rank(k: Kind): nat
  {
    match k
    case TaskKind => 0
    case FileKind => 1
    case ChecklistKind => 2
  }

  /** The view each kind of hit opens. */
  function Target(k: Kind): View
  {
    match k
    case TaskKind => Table
    case FileKind => Files
    case ChecklistKind => Board
  }

  /**
   * One search hit, holding the record it was found in; the pill text, label,
   * subtitle and navigation target are derived from it below.
   */
  datatype Hit = TaskHit(task: Task) | FileHit(file: FileItem) | ChecklistHit(item: ChecklistItem)

  function KindOf(h: Hit): Kind
  {
    match h
    case TaskHit(_) => TaskKind
    case FileHit(_) => FileKind
    case ChecklistHit(_) => ChecklistKind
  }

  function DueText(due: Option<int>): string
  {
    if due.Some? then IsoDate(due.value) else "—"
  }

  /** The bold label of a hit. */
  function HitLabel(h: Hit): string
  {
    match h
    case TaskHit(t) => t.title
    case FileHit(f) => f.filename
    case ChecklistHit(c) => c.itemLabel
  }

  /** The grey subtitle of a hit. */
  function HitSub(h: Hit): string
  {
    match h
    case TaskHit(t) => t.status + " · " + t.assignee + " · " + DueText(t.dueDate)
    case FileHit(f) => OrElse(f.mimeType, "—") + " · " + f.uploader
    case ChecklistHit(c) => c.stage + " · " + (if c.isDone then "Done" else "Open")
  }

  /** Where clicking a hit navigates (`go`). */
  function Go(h: Hit): View
  {
    match h
    case TaskHit(_) => Table
    case FileHit(_) => Files
    case ChecklistHit(_) => Board
  }

  function FileHaystack(f: FileItem): string
  {
    f.filename + " " + OrElse(f.mimeType, "") + " " + f.uploader
  }

  function FileMatches(qq: string): FileItem -> bool
  {
    (f: FileItem) => Contains(Lower(FileHaystack(f)), qq)
  }

  function ChecklistHaystack(c: ChecklistItem): string
  {
    c.stage + " " + c.itemLabel
  }

  function ChecklistMatches(qq: string): ChecklistItem -> bool
  {
    (c: ChecklistItem) => Contains(Lower(ChecklistHaystack(c)), qq)
  }

  function AsTaskHit(t: Task): Hit { TaskHit(t) }
  function AsFileHit(f: FileItem): Hit { FileHit(f) }
  function AsChecklistHit(c: ChecklistItem): Hit { ChecklistHit(c) }

  function TaskPart(qq: string, tasks: seq<Task>): seq<Hit>
  {
    Map(Filter(tasks, App.TaskMatches(qq)), AsTaskHit)
  }

  function FilePart(qq: string, files: seq<FileItem>): seq<Hit>
  {
    Map(Filter(files, FileMatches(qq)), AsFileHit)
  }

  function ChecklistPart(qq: string, checklist: seq<ChecklistItem>): seq<Hit>
  {
    Map(Filter(checklist, ChecklistMatches(qq)), AsChecklistHit)
  }

  /** Every match of the lowercased query `qq`: tasks, then files, then checklist items. */
  function AllHits(qq: string, tasks: seq<Task>, files: seq<FileItem>, checklist: seq<ChecklistItem>): seq<Hit>
  {
    TaskPart(qq, tasks) + FilePart(qq, files) + ChecklistPart(qq, checklist)
  }

  /**
   * The hits for query `q`: none for a blank query, else the first 24
   * matches, or all of them when there are fewer.
   */
  function Hits(q: string, tasks: seq<Task>, files: seq<FileItem>, checklist: seq<ChecklistItem>): (r: seq<Hit>)
    ensures |r| <= MaxHits
    ensures Trim(q) == "" ==> r == []
    ensures var all := AllHits(Lower(Trim(q)), tasks, files, checklist);
      && (Trim(q) != "" ==> |r| == (if |all| < MaxHits then |all| else MaxHits))
      && forall i :: 0 <= i < |r| ==> r[i] == all[i]
  {
    var qq := Lower(Trim(q));
    if qq == "" then [] else Take(AllHits(qq, tasks, files, checklist), MaxHits)
  }

  /** The `hits` memo: three loops push matches into `out`, which is then cut to 24. */
  method ComputeHits(q: string, tasks: seq<Task>, files: seq<FileItem>, checklist: seq<ChecklistItem>)
    returns (hits: seq<Hit>)
    ensures hits == Hits(q, tasks, files, checklist)
  {
    var qq := Lower(Trim(q));
    if qq == "" {
      return [];
    }
    var out := CollectHits(qq, tasks, files, checklist);
    hits := Take(out, MaxHits);
  }

  /** The three loops, one after the other, pushing into the same list. */
  method CollectHits(qq: string, tasks: seq<Task>, files: seq<FileItem>, checklist: seq<ChecklistItem>)
    returns (out: seq<Hit>)
    ensures out == AllHits(qq, tasks, files, checklist)
  {
    out := PushTaskHits(qq, tasks, []);
    out := PushFileHits(qq, files, out);
    out := PushChecklistHits(qq, checklist, out);
  }

  /** The loop over tasks: appends a hit for every task whose haystack contains `qq`. */
  method PushTaskHits(qq: string, tasks: seq<Task>, out0: seq<Hit>) returns (out: seq<Hit>)
    ensures out == out0 + TaskPart(qq, tasks)
  {
    out := out0;
    var i := 0;
    while i < |tasks|
      invariant 0 <= i <= |tasks|
      invariant out == out0 + TaskPart(qq, tasks[..i])
    {
      var x := tasks[i];
      MapFilterPrefix(tasks, i, App.TaskMatches(qq), AsTaskHit);
      if App.TaskMatches(qq)(x) {
        AppendTail(out0, TaskPart(qq, tasks[..i]), [TaskHit(x)]);
        out := out + [TaskHit(x)];
      }
      i := i + 1;
    }
    assert tasks[..|tasks|] == tasks;
  }

  /** The loop over files. */
  method PushFileHits(qq: string, files: seq<FileItem>, out0: seq<Hit>) returns (out: seq<Hit>)
    ensures out == out0 + FilePart(qq, files)
  {
    out := out0;
    var i := 0;
    while i < |files|
      invariant 0 <= i <= |files|
      invariant out == out0 + FilePart(qq, files[..i])
    {
      var x := files[i];
      MapFilterPrefix(files, i, FileMatches(qq), AsFileHit);
      if FileMatches(qq)(x) {
        AppendTail(out0, FilePart(qq, files[..i]), [FileHit(x)]);
        out := out + [FileHit(x)];
      }
      i := i + 1;
    }
    assert files[..|files|] == files;
  }

  /** The loop over checklist items. */
  method PushChecklistHits(qq: string, checklist: seq<ChecklistItem>, out0: seq<Hit>) returns (out: seq<Hit>)
    ensures out == out0 + ChecklistPart(qq, checklist)
  {
    out := out0;
    var i := 0;
    while i < |checklist|
      invariant 0 <= i <= |checklist|
      invariant out == out0 + ChecklistPart(qq, checklist[..i])
    {
      var x := checklist[i];
      MapFilterPrefix(checklist, i, ChecklistMatches(qq), AsChecklistHit);
      if ChecklistMatches(qq)(x) {
        AppendTail(out0, ChecklistPart(qq, checklist[..i]), [ChecklistHit(x)]);
        out := out + [ChecklistHit(x)];
      }
      i := i + 1;
    }
    assert checklist[..|checklist|] == checklist;
  }

  /** A query that is blank after trimming finds nothing. */
  lemma BlankQueryNoHits(q: string, tasks: seq<Task>, files: seq<FileItem>, checklist: seq<ChecklistItem>)
    requires Trim(q) == ""
    ensures Hits(q, tasks, files, checklist) == []
  {
  }

  /** With at most 24 matches, a non-blank query shows every one of them, in order. */
  lemma AllFoundWhenFew(q: string, tasks: seq<Task>, files: seq<FileItem>, checklist: seq<ChecklistItem>)
    requires Trim(q) != ""
    requires |AllHits(Lower(Trim(q)), tasks, files, checklist)| <= MaxHits
    ensures Hits(q, tasks, files, checklist) == AllHits(Lower(Trim(q)), tasks, files, checklist)
  {
  }

  /**
   * With at most 24 matches, every task, file and checklist item whose
   * lowercased haystack contains the lowercased, trimmed query is found.
   */
  lemma {:induction false} MatchesFound(q: string, tasks: seq<Task>, files: seq<FileItem>, checklist: seq<ChecklistItem>)
    requires Trim(q) != ""
    requires |AllHits(Lower(Trim(q)), tasks, files, checklist)| <= MaxHits
    ensures var qq := Lower(Trim(q)); var h := Hits(q, tasks, files, checklist);
      && (forall t :: t in tasks && Contains(Lower(App.TaskHaystack(t)), qq) ==> TaskHit(t) in h)
      && (forall f :: f in files && Contains(Lower(FileHaystack(f)), qq) ==> FileHit(f) in h)
      && (forall c :: c in checklist && Contains(Lower(ChecklistHaystack(c)), qq) ==> ChecklistHit(c) in h)
  {
    var qq := Lower(Trim(q));
    var h := Hits(q, tasks, files, checklist);
    AllFoundWhenFew(q, tasks, files, checklist);
    assert h == TaskPart(qq, tasks) + FilePart(qq, files) + ChecklistPart(qq, checklist);
    forall t | t in tasks && Contains(Lower(App.TaskHaystack(t)), qq)
      ensures TaskHit(t) in h
    {
      MapFilterHas(tasks, App.TaskMatches(qq), AsTaskHit, t);
    }
    forall f | f in files && Contains(Lower(FileHaystack(f)), qq)
      ensures FileHit(f) in h
    {
      MapFilterHas(files, FileMatches(qq), AsFileHit, f);
    }
    forall c | c in checklist && Contains(Lower(ChecklistHaystack(c)), qq)
      ensures ChecklistHit(c) in h
    {
      MapFilterHas(checklist, ChecklistMatches(qq), AsChecklistHit, c);
    }
  }

  /** Each part holds hits of its own kind only. */
  lemma PartKinds(qq: string, tasks: seq<Task>, files: seq<FileItem>, checklist: seq<ChecklistItem>)
    ensures forall i :: 0 <= i < |TaskPart(qq, tasks)| ==> TaskPart(qq, tasks)[i].TaskHit?
    ensures forall i :: 0 <= i < |FilePart(qq, files)| ==> FilePart(qq, files)[i].FileHit?
    ensures forall i :: 0 <= i < |ChecklistPart(qq, checklist)| ==> ChecklistPart(qq, checklist)[i].ChecklistHit?
  {
  }

  lemma AllKindsInOrder(qq: string, tasks: seq<Task>, files: seq<FileItem>, checklist: seq<ChecklistItem>)
    ensures var all := AllHits(qq, tasks, files, checklist);
      forall i, j :: 0 <= i < j < |all| ==> Rank(KindOf(all[i])) <= Rank(KindOf(all[j]))
  {
    var tp, fp := TaskPart(qq, tasks), FilePart(qq, files);
    PartKinds(qq, tasks, files, checklist);
    var all := AllHits(qq, tasks, files, checklist);
    assert forall i :: 0 <= i < |all| ==> Rank(KindOf(all[i])) == (if i < |tp| then 0 else if i < |tp| + |fp| then 1 else 2);
  }

  /** Task hits come before file hits, which come before checklist hits. */
  lemma KindsInOrder(q: string, tasks: seq<Task>, files: seq<FileItem>, checklist: seq<ChecklistItem>)
    ensures var h := Hits(q, tasks, files, checklist);
      forall i, j :: 0 <= i < j < |h| ==> Rank(KindOf(h[i])) <= Rank(KindOf(h[j]))
  {
    AllKindsInOrder(Lower(Trim(q)), tasks, files, checklist);
  }

  /** Every match comes from a record of its kind whose lowercased haystack contains `qq`. */
  lemma AllHitsMatch(qq: string, tasks: seq<Task>, files: seq<FileItem>, checklist: seq<ChecklistItem>)
    ensures var all := AllHits(qq, tasks, files, checklist);
      forall i :: 0 <= i < |all| ==>
        && (all[i].TaskHit? ==> all[i].task in tasks && Contains(Lower(App.TaskHaystack(all[i].task)), qq))
        && (all[i].FileHit? ==> all[i].file in files && Contains(Lower(FileHaystack(all[i].file)), qq))
        && (all[i].ChecklistHit? ==> all[i].item in checklist && Contains(Lower(ChecklistHaystack(all[i].item)), qq))
  {
    var tp, fp, cp := TaskPart(qq, tasks), FilePart(qq, files), ChecklistPart(qq, checklist);
    FilterMembers(tasks, App.TaskMatches(qq));
    FilterMembers(files, FileMatches(qq));
    FilterMembers(checklist, ChecklistMatches(qq));
    PartKinds(qq, tasks, files, checklist);
    var all := AllHits(qq, tasks, files, checklist);
    forall i | 0 <= i < |all|
      ensures all[i].TaskHit? ==> all[i].task in tasks && Contains(Lower(App.TaskHaystack(all[i].task)), qq)
      ensures all[i].FileHit? ==> all[i].file in files && Contains(Lower(FileHaystack(all[i].file)), qq)
      ensures all[i].ChecklistHit? ==> all[i].item in checklist && Contains(Lower(ChecklistHaystack(all[i].item)), qq)
    {
      if i < |tp| {
        assert all[i] == tp[i];
        assert tp[i].task == Filter(tasks, App.TaskMatches(qq))[i];
      } else if i < |tp| + |fp| {
        assert all[i] == fp[i - |tp|];
        assert fp[i - |tp|].file == Filter(files, FileMatches(qq))[i - |tp|];
      } else {
        assert all[i] == cp[i - |tp| - |fp|];
        assert cp[i - |tp| - |fp|].item == Filter(checklist, ChecklistMatches(qq))[i - |tp| - |fp|];
      }
    }
  }

  /**
   * Every hit comes from a record of its kind whose lowercased haystack
   * contains the lowercased query.
   */
  lemma HitsMatch(q: string, tasks: seq<Task>, files: seq<FileItem>, checklist: seq<ChecklistItem>)
    ensures var qq := Lower(Trim(q)); var h := Hits(q, tasks, files, checklist);
      forall i :: 0 <= i < |h| ==>
        && (h[i].TaskHit? ==> h[i].task in tasks && Contains(Lower(App.TaskHaystack(h[i].task)), qq))
        && (h[i].FileHit? ==> h[i].file in files && Contains(Lower(FileHaystack(h[i].file)), qq))
        && (h[i].ChecklistHit? ==> h[i].item in checklist && Contains(Lower(ChecklistHaystack(h[i].item)), qq))
  {
    AllHitsMatch(Lower(Trim(q)), tasks, files, checklist);
  }

  /** The kinds open the table, the file room and the board, and show as "Task", "File" and "Checklist". */
  lemma HitTargets(h: Hit)
    ensures Go(h) == Target(KindOf(h))
    ensures h.TaskHit? ==> KindName(KindOf(h)) == "Task" && HitLabel(h) == h.task.title
    ensures h.FileHit? ==> KindName(KindOf(h)) == "File" && HitLabel(h) == h.file.filename
    ensures h.ChecklistHit? ==> KindName(KindOf(h)) == "Checklist" && HitLabel(h) == h.item.itemLabel
  {
  }

  /** "No results" is shown only for a non-blank query without hits; the tips only for a blank query. */
  predicate ShowsNoResults(q: string, hits: seq<Hit>)
  {
    Trim(q) != "" && |hits| == 0
  }

  predicate ShowsTips(q: string)
  {
    Trim(q) == ""
  }

  lemma NoResultsAndTipsExclusive(q: string, tasks: seq<Task>, files: seq<FileItem>, checklist: seq<ChecklistItem>)
    ensures var h := Hits(q, tasks, files, checklist);
      !(ShowsNoResults(q, h) && ShowsTips(q)) && (ShowsNoResults(q, h) || ShowsTips(q) || |h| > 0)
  {
  }

  /** The dialog's open flag and query text. */
  class SearchDialog {
    var isOpen: bool
    var query: string

    constructor(open0: bool)
      ensures isOpen == open0 && query == ""
    {
      isOpen := open0;
      query := "";
    }

    /**
     * The parent opens or closes the dialog; the effect on `open` clears the
     * query each time it becomes open and leaves it alone otherwise.
     */
    method SetOpen(o: bool)
      modifies this
      ensures isOpen == o
      ensures o && !old(isOpen) ==> query == ""
      ensures !(o && !old(isOpen)) ==> query == old(query)
    {
      if o && !isOpen {
        query := "";
      }
      isOpen := o;
    }

    method Type(text: string)
      modifies this
      ensures query == text && isOpen == old(isOpen)
    {
      query := text;
    }
  }

  /** Right after opening, the dialog shows the tips and no hits. */
  lemma FreshDialogShowsTips(tasks: seq<Task>, files: seq<FileItem>, checklist: seq<ChecklistItem>)
    ensures ShowsTips("") && Hits("", tasks, files, checklist) == []
  {
  }
}
