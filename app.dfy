/**
 * The client shell's derived state: recently opened and pinned matters kept
 * in browser storage, the matter selector's label, the task search box and
 * the KPI counters.
 */
module App {
  import opened Common
  import opened Text
  import opened Entities
  import Dates
  import Settings

  /** Most ids a stored recents or pins list keeps. */
  const MaxStoredIds: nat := 12

  /** One element of a stored JSON array, after `Number(x)`. */
  datatype IdElem = Finite(value: int) | NotFinite

  /**
   * The raw storage slot of an id list: absent or empty, not valid JSON,
   * JSON that is not an array, or an array.
   */
  datatype StoredIds = Absent | Malformed | NotArray | Array(elems: seq<IdElem>)

  function FiniteValues(elems: seq<IdElem>): (r: seq<int>)
    ensures |r| <= |elems|
  {
    if elems == [] then []
    else (if elems[0].Finite? then [elems[0].value] else []) + FiniteValues(elems[1..])
  }

  /** `loadIds`: the finite numbers of a stored array, and `[]` for anything else. */
  function LoadIds(stored: StoredIds): (r: seq<int>)
    ensures !stored.Array? ==> r == []
  {
    if stored.Array? then FiniteValues(stored.elems) else []
  }

  function AsElem(n: int): IdElem
  {
    Finite(n)
  }

  /** `saveIds`: the first 12 ids, written as a JSON array. */
  function SaveIds(ids: seq<int>): StoredIds
  {
    Array(Map(Take(ids, MaxStoredIds), AsElem))
  }

  lemma {:induction false} FiniteValuesOfFinite(ids: seq<int>)
    ensures FiniteValues(Map(ids, AsElem)) == ids
  {
    if ids != [] {
      FiniteValuesOfFinite(ids[1..]);
      assert Map(ids, AsElem)[1..] == Map(ids[1..], AsElem);
    }
  }

  /** What is saved loads back as its first 12 ids: the stored list never exceeds 12. */
  lemma SaveThenLoad(ids: seq<int>)
    ensures LoadIds(SaveIds(ids)) == Take(ids, MaxStoredIds)
    ensures |LoadIds(SaveIds(ids))| <= MaxStoredIds
  {
    FiniteValuesOfFinite(Take(ids, MaxStoredIds));
  }

  /** Non-finite array elements are dropped, the others kept in order. */
  lemma {:induction false} LoadKeepsFinite(elems: seq<IdElem>)
    ensures forall i :: 0 <= i < |elems| && elems[i].Finite? ==> elems[i].value in LoadIds(Array(elems))
  {
    if elems != [] {
      LoadKeepsFinite(elems[1..]);
      forall i | 0 <= i < |elems| && elems[i].Finite?
        ensures elems[i].value in LoadIds(Array(elems))
      {
        if i > 0 {
          assert elems[i] == elems[1..][i - 1];
        }
      }
    }
  }

  function IsNot(id: int): int -> bool
  {
    (x: int) => x != id
  }

  /** `upsertRecent`'s list: `id` first, then the other ids in their order. */
  function Upserted(ids: seq<int>, id: int): seq<int>
  {
    [id] + Filter(ids, IsNot(id))
  }

  lemma UpsertedShape(ids: seq<int>, id: int)
    ensures Upserted(ids, id)[0] == id
    ensures id !in Upserted(ids, id)[1..]
    ensures SubsequenceOf(Upserted(ids, id)[1..], ids)
    ensures forall x :: x in ids && x != id <==> x in Upserted(ids, id)[1..]
  {
    FilterIsSubsequence(ids, IsNot(id));
    FilterMembers(ids, IsNot(id));
  }

  /** `togglePin`'s list: an unpinned id is prepended, a pinned one removed. */
  function Toggled(ids: seq<int>, id: int): seq<int>
  {
    if id in ids then Filter(ids, IsNot(id)) else [id] + ids
  }

  lemma ToggledMembership(ids: seq<int>, id: int)
    ensures id in Toggled(ids, id) <==> id !in ids
  {
    FilterMembers(ids, IsNot(id));
  }

  /** On fewer than 12 ids without `id`, pinning and unpinning through storage restores the list. */
  lemma ToggleTwiceRestores(ids: seq<int>, id: int)
    requires |ids| < MaxStoredIds && id !in ids
    ensures Toggled(LoadIds(SaveIds(Toggled(ids, id))), id) == ids
  {
    SaveThenLoad(Toggled(ids, id));
    assert LoadIds(SaveIds(Toggled(ids, id))) == [id] + ids;
    assert [id] + ids == [id] + ids && ([id] + ids)[1..] == ids;
    FilterAll(ids, IsNot(id));
  }

  /** The browser storage slots of the recents and pins lists. */
  class IdStore {
    var recents: StoredIds
    var pins: StoredIds

    constructor(recents0: StoredIds, pins0: StoredIds)
      ensures recents == recents0 && pins == pins0
    {
      recents := recents0;
      pins := pins0;
    }

    /** `upsertRecent`: moves `projectId` to the front, persists, and returns the whole list. */
    method UpsertRecent(projectId: int) returns (ids: seq<int>)
      modifies this
      ensures ids == Upserted(LoadIds(old(recents)), projectId)
      ensures recents == SaveIds(ids)
      ensures pins == old(pins)
    {
      ids := Filter(LoadIds(recents), IsNot(projectId));
      ids := [projectId] + ids;
      recents := SaveIds(ids);
    }

    /** `togglePin`: pins or unpins `projectId`, persists, and returns the whole list. */
    method TogglePin(projectId: int) returns (next: seq<int>)
      modifies this
      ensures next == Toggled(LoadIds(old(pins)), projectId)
      ensures pins == SaveIds(next)
      ensures recents == old(recents)
    {
      var ids := LoadIds(pins);
      next := if projectId in ids then Filter(ids, IsNot(projectId)) else [projectId] + ids;
      pins := SaveIds(next);
    }
  }

  /** The list `upsertRecent` returns is not cut to 12, though only 12 are stored. */
  lemma UpsertReturnsUntruncated(ids: seq<int>, id: int)
    requires |ids| == MaxStoredIds && id !in ids
    ensures |Upserted(ids, id)| == MaxStoredIds + 1
    ensures |LoadIds(SaveIds(Upserted(ids, id)))| == MaxStoredIds
  {
    FilterAll(ids, IsNot(id));
    SaveThenLoad(Upserted(ids, id));
  }

  /** `daysUntil`: no date gives null, otherwise the signed whole days from today. */
  function DaysUntil(due: Option<int>, today: int): (r: Option<int>)
    ensures r.None? <==> due.None?
    ensures due.Some? ==> (r.value == 0 <==> due.value == today)
    ensures due.Some? ==> (r.value < 0 <==> due.value < today)
    ensures due.Some? ==> due.value == today + r.value
  {
    match due
    case None => None
    case Some(d) => Some(Dates.DaysUntil(d, today))
  }

  const PurchasePrefix: string := "Purchase – "
  const SalePrefix: string := "Sale – "

  /** The title with one leading "Purchase – " or "Sale – " removed. */
  function StripTypePrefix(title: string): (core: string)
    ensures StartsWith(title, PurchasePrefix) ==> title == PurchasePrefix + core
    ensures !StartsWith(title, PurchasePrefix) && StartsWith(title, SalePrefix) ==> title == SalePrefix + core
    ensures !StartsWith(title, PurchasePrefix) && !StartsWith(title, SalePrefix) ==> core == title
  {
    if StartsWith(title, PurchasePrefix) then title[|PurchasePrefix|..]
    else if StartsWith(title, SalePrefix) then title[|SalePrefix|..]
    else title
  }

  const LabelMax: int := 44

  /** The fixed part of a matter label: "<type> · <location> — ". */
  function MatterPrefix(p: Project): string
  {
    p.transactionType + " · " + p.location + " — "
  }

  /** Room left for the title core: 44 less the prefix, but never under 10. */
  function CoreRoom(left: string): int
  {
    if LabelMax - |left| > 10 then LabelMax - |left| else 10
  }

  /**
   * The core as shown in `room` characters: whole when it fits, otherwise
   * its first `room - 1` characters without trailing white space, then "…".
   */
  function ShownCore(core: string, room: int): (r: string)
    requires room >= 10
    ensures |core| <= room ==> r == core
    ensures |core| > room ==>
      && 1 <= |r| <= room && r[|r| - 1] == '…'
      && var kept := r[..|r| - 1];
         && kept == core[..|kept|]
         && (kept == [] || !IsSpace(kept[|kept| - 1]))
         && forall i :: |kept| <= i < room - 1 ==> IsSpace(core[i])
  {
    if |core| > room then
      var kept := TrimEnd(core[..room - 1]);
      assert (kept + "…")[..|kept|] == kept;
      kept + "…"
    else core
  }

  /** `matterLabel`: "<type> · <location> — " followed by the title core, cut with "…" when too long. */
  function MatterLabel(p: Project): string
  {
    var left := MatterPrefix(p);
    left + ShownCore(StripTypePrefix(p.title), CoreRoom(left))
  }

  /**
   * The label keeps the prefix, and the core when it fits. A long core is
   * cut to its first `room - 1` characters, trailing white space is
   * dropped from those, and "…" follows.
   */
  lemma MatterLabelShape(p: Project)
    ensures var left := MatterPrefix(p);
      var room := CoreRoom(left);
      var core := StripTypePrefix(p.title);
      var whole := MatterLabel(p);
      && StartsWith(whole, left)
      && (|core| <= room ==> whole == left + core)
      && (|core| > room ==>
            && whole[|whole| - 1] == '…'
            && |whole| <= |left| + room
            && var kept := whole[|left|..|whole| - 1];
               && kept == core[..|kept|]
               && (kept == [] || !IsSpace(kept[|kept| - 1]))
               && forall i :: |kept| <= i < room - 1 ==> IsSpace(core[i]))
  {
    var left := MatterPrefix(p);
    var shown := ShownCore(StripTypePrefix(p.title), CoreRoom(left));
    var whole := MatterLabel(p);
    assert whole[..|left|] == left;
    assert |shown| > 0 ==> whole[|left|..|whole| - 1] == shown[..|shown| - 1];
  }

  /** The text searched for a task: title, tags (or "") and assignee, space-separated. */
  function TaskHaystack(t: Task): string
  {
    t.title + " " + OrElse(t.tags, "") + " " + t.assignee
  }

  function TaskMatches(qq: string): Task -> bool
  {
    (t: Task) => Contains(Lower(TaskHaystack(t)), qq)
  }

  /** `filteredTasks`: all tasks for a blank query, else those whose lowercased haystack contains it. */
  function FilteredTasks(tasks: seq<Task>, q: string): seq<Task>
  {
    var qq := Lower(Trim(q));
    if qq == "" then tasks else Filter(tasks, TaskMatches(qq))
  }

  lemma FilteredTasksMeaning(tasks: seq<Task>, q: string)
    ensures Trim(q) == "" ==> FilteredTasks(tasks, q) == tasks
    ensures SubsequenceOf(FilteredTasks(tasks, q), tasks)
    ensures Trim(q) != "" ==> forall t :: t in FilteredTasks(tasks, q) <==>
      t in tasks && Contains(Lower(TaskHaystack(t)), Lower(Trim(q)))
  {
    var qq := Lower(Trim(q));
    if qq == "" {
      SubsequenceRefl(tasks);
    } else {
      FilterIsSubsequence(tasks, TaskMatches(qq));
      FilterMembers(tasks, TaskMatches(qq));
    }
  }

  lemma {:induction false} SubsequenceRefl<T>(s: seq<T>)
    ensures SubsequenceOf(s, s)
  {
    if s != [] {
      SubsequenceRefl(s[1..]);
    }
  }

  /** The four counters of the dashboard header. */
  datatype Kpis = Kpis(open: nat, dueSoon: nat, overdue: nat, done: nat)

  function NotDone(t: Task): bool
  {
    t.status != "Done"
  }

  function IsDone(t: Task): bool
  {
    t.status == "Done"
  }

  function DueSoon(today: int): Task -> bool
  {
    (t: Task) => t.dueDate.Some? && 0 <= t.dueDate.value - today <= 7 && t.status != "Done"
  }

  function OverdueOpen(today: int): Task -> bool
  {
    (t: Task) => t.dueDate.Some? && t.dueDate.value - today < 0 && t.status != "Done"
  }

  /** `kpis`, computed over every task of the matter, whatever the search box holds. */
  function ComputeKpis(tasks: seq<Task>, today: int): Kpis
  {
    Kpis(Count(tasks, NotDone), Count(tasks, DueSoon(today)), Count(tasks, OverdueOpen(today)), Count(tasks, IsDone))
  }

  lemma KpiRelations(tasks: seq<Task>, today: int)
    ensures var k := ComputeKpis(tasks, today);
      && k.open + k.done == |tasks|
      && k.dueSoon + k.overdue <= k.open
      && k.dueSoon <= k.open && k.overdue <= k.open
  {
    CountSplit(tasks, NotDone, IsDone);
    CountMono(tasks, DueSoon(today), NotDone);
    CountMono(tasks, OverdueOpen(today), NotDone);
    var either := (t: Task) => DueSoon(today)(t) || OverdueOpen(today)(t);
    CountDisjoint(tasks, DueSoon(today), OverdueOpen(today));
    CountUnion(tasks, DueSoon(today), OverdueOpen(today), NotDone);
  }

  /** Two disjoint selections inside a third count no more than it. */
  lemma {:induction false} CountUnion<T>(s: seq<T>, p: T -> bool, q: T -> bool, r: T -> bool)
    requires forall x :: !(p(x) && q(x))
    requires forall x :: (p(x) || q(x)) ==> r(x)
    ensures Count(s, p) + Count(s, q) <= Count(s, r)
  {
    if s != [] {
      CountUnion(s[1..], p, q, r);
    }
  }

  /** Undated tasks are neither due soon nor overdue. */
  lemma UndatedNotCounted(t: Task, today: int)
    requires t.dueDate.None?
    ensures !DueSoon(today)(t) && !OverdueOpen(today)(t)
  {
  }

  /** What the header shows next to the task list: the list follows the query, the counters do not. */
  datatype TaskPanel = TaskPanel(visible: seq<Task>, kpis: Kpis)

  function Panel(tasks: seq<Task>, q: string, today: int): TaskPanel
  {
    TaskPanel(FilteredTasks(tasks, q), ComputeKpis(tasks, today))
  }

  /** The counters ignore the search box: every query shows the same KPIs. */
  lemma KpisIgnoreQuery(tasks: seq<Task>, q1: string, q2: string, today: int)
    ensures Panel(tasks, q1, today).kpis == Panel(tasks, q2, today).kpis
    ensures Panel(tasks, q1, today).kpis == ComputeKpis(tasks, today)
  {
  }

  function IdIn(ids: seq<int>): Project -> bool
  {
    (p: Project) => p.id in ids
  }

  /** `pinnedProjects`: projects whose id is pinned, in project-list order. */
  function PinnedProjects(projects: seq<Project>, pinnedIds: seq<int>): seq<Project>
  {
    Filter(projects, IdIn(pinnedIds))
  }

  lemma PinnedProjectsMeaning(projects: seq<Project>, pinnedIds: seq<int>)
    ensures SubsequenceOf(PinnedProjects(projects, pinnedIds), projects)
    ensures forall p :: p in PinnedProjects(projects, pinnedIds) <==> p in projects && p.id in pinnedIds
  {
    FilterIsSubsequence(projects, IdIn(pinnedIds));
    FilterMembers(projects, IdIn(pinnedIds));
  }

  /** `new Map(projects.map(p => [p.id, p])).get(id)`: the last project with that id. */
  function LookupProject(projects: seq<Project>, id: int): (r: Option<Project>)
    ensures r.Some? ==> r.value in projects && r.value.id == id
    ensures r.None? <==> forall i :: 0 <= i < |projects| ==> projects[i].id != id
  {
    if projects == [] then None
    else
      var last := projects[|projects| - 1];
      if last.id == id then Some(last)
      else
        var r := LookupProject(projects[..|projects| - 1], id);
        assert forall i :: 0 <= i < |projects| - 1 ==> projects[..|projects| - 1][i] == projects[i];
        r
  }

  /** `recentProjects`: the recent ids in their order, each mapped to its project, unknown ids dropped. */
  function RecentProjects(projects: seq<Project>, recentIds: seq<int>): (r: seq<Project>)
    ensures |r| <= |recentIds|
  {
    if recentIds == [] then []
    else
      var head := LookupProject(projects, recentIds[0]);
      (if head.Some? then [head.value] else []) + RecentProjects(projects, recentIds[1..])
  }

  /** When every recent id is a known project, the list follows the ids one for one. */
  lemma {:induction false} RecentProjectsFollowIds(projects: seq<Project>, recentIds: seq<int>)
    requires forall id :: id in recentIds ==> exists i :: 0 <= i < |projects| && projects[i].id == id
    ensures |RecentProjects(projects, recentIds)| == |recentIds|
    ensures forall i :: 0 <= i < |recentIds| ==> RecentProjects(projects, recentIds)[i].id == recentIds[i]
  {
    if recentIds != [] {
      assert forall id :: id in recentIds[1..] ==> id in recentIds;
      assert recentIds[0] in recentIds;
      RecentProjectsFollowIds(projects, recentIds[1..]);
      var r := RecentProjects(projects, recentIds);
      var rest := RecentProjects(projects, recentIds[1..]);
      assert LookupProject(projects, recentIds[0]).Some?;
      forall i | 0 <= i < |recentIds|
        ensures r[i].id == recentIds[i]
      {
        if i > 0 {
          assert r[i] == rest[i - 1];
        }
      }
    }
  }

  /** Every listed recent project is known and was recently opened. */
  lemma {:induction false} RecentProjectsKnown(projects: seq<Project>, recentIds: seq<int>)
    ensures forall p :: p in RecentProjects(projects, recentIds) ==> p in projects && p.id in recentIds
  {
    if recentIds != [] {
      RecentProjectsKnown(projects, recentIds[1..]);
    }
  }

  /**
   * `loadPlatformDefaultBg`: the shell reads only the background property of
   * the platform settings, a string property as stored and "#0b1220" otherwise.
   */
  function PlatformDefaultBg(stored: Settings.Stored): (r: string)
    ensures stored.Json? && stored.defaultProjectBg.Str? ==> r == stored.defaultProjectBg.s
    ensures !(stored.Json? && stored.defaultProjectBg.Str?) ==> r == Settings.DefaultBg
  {
    if stored.Json? && stored.defaultProjectBg.Str? then stored.defaultProjectBg.s else "#0b1220"
  }

  /** The shell and the settings page agree on the default background. */
  lemma PlatformBgMatchesSettings(stored: Settings.Stored)
    ensures PlatformDefaultBg(stored) == Settings.LoadSettings(stored).defaultProjectBg
  {
  }
}
