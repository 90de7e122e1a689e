/**
 * The project overview page: a text filter over title, location and status,
 * the sortable table, the summary counters and the deadline column.
 */
module Overview {
  import opened Common
  import opened Text
  import opened Entities
  import opened Sorting
  import opened ProjectSort

  /** The filter box: the lower-cased, untrimmed filter occurs in the title, the location or the status. */
  function Matches(filter: string): Project -> bool
  {
    (p: Project) =>
      var f := Lower(filter);
      Contains(Lower(p.title), f) || Contains(Lower(p.location), f) || Contains(Lower(p.status), f)
  }

  /** `sortedAndFilteredProjects`. */
  function Visible(projects: seq<Project>, filter: string, field: SortField, dir: Direction): seq<Project>
  {
    Sort(Filter(projects, Matches(filter)), Le(field, dir))
  }

  /**
   * The table shows exactly the matching projects, each as often as in the
   * input, ordered by the column in the chosen direction.
   */
  lemma VisibleMeaning(projects: seq<Project>, filter: string, field: SortField, dir: Direction)
    ensures multiset(Visible(projects, filter, field, dir)) == multiset(Filter(projects, Matches(filter)))
    ensures forall p :: p in Visible(projects, filter, field, dir) <==> p in projects && Matches(filter)(p)
    ensures Sorted(Visible(projects, filter, field, dir), Le(field, dir))
  {
    var kept := Filter(projects, Matches(filter));
    LeIsTotalPreorder(field, dir);
    SortSorted(kept, Le(field, dir));
    FilterMembers(projects, Matches(filter));
    forall p
      ensures p in Visible(projects, filter, field, dir) <==> p in kept
    {
      assert p in multiset(Visible(projects, filter, field, dir)) <==> p in multiset(kept);
    }
  }

  /** An empty filter keeps every project: the table is a reordering of the input. */
  lemma {:induction false} EmptyFilterKeepsAll(projects: seq<Project>)
    ensures Filter(projects, Matches("")) == projects
  {
    if projects != [] {
      EmptyFilterKeepsAll(projects[1..]);
      ContainsEmpty(Lower(projects[0].title));
      assert Lower("") == "";
      assert Matches("")(projects[0]);
    }
  }

  datatype Summary = Summary(total: nat, active: nat, completed: nat, critical: nat, atRisk: nat)

  /** Registry and Completed are the finished statuses. */
  function IsFinished(p: Project): bool
  {
    p.status == "Registry" || p.status == "Completed"
  }

  function IsActive(p: Project): bool
  {
    !IsFinished(p)
  }

  function HasRisk(risk: string): Project -> bool
  {
    (p: Project) => p.risk == risk
  }

  /** `summaryStats`, over all projects whatever the filter. */
  function SummaryStats(projects: seq<Project>): Summary
  {
    Summary(|projects|, Count(projects, IsActive), Count(projects, IsFinished),
      Count(projects, HasRisk("Critical")), Count(projects, HasRisk("At Risk")))
  }

  /** Every project is either active or completed, never both. */
  lemma SummaryAddsUp(projects: seq<Project>)
    ensures var s := SummaryStats(projects);
      s.active + s.completed == s.total && s.critical + s.atRisk <= s.total
  {
    CountSplit(projects, IsActive, IsFinished);
    CountDisjoint(projects, HasRisk("Critical"), HasRisk("At Risk"));
  }

  /** How the deadline column is coloured. */
  datatype Urgency = Overdue | DueSoon | Calm

  /** `isOverdue` / `isDueSoon` from the days left (none without a target date). */
  function UrgencyOf(daysLeft: Option<int>): (u: Urgency)
    ensures u == Overdue <==> daysLeft.Some? && daysLeft.value < 0
    ensures u == DueSoon <==> daysLeft.Some? && 0 <= daysLeft.value <= 7
  {
    if daysLeft.Some? && daysLeft.value < 0 then Overdue
    else if daysLeft.Some? && daysLeft.value <= 7 then DueSoon
    else Calm
  }

  /** The line under the date: "<n> days overdue", "Due today", "Tomorrow" or "<n> days left". */
  function DaysLeftLabel(d: int): string
  {
    if d < 0 then IntToString(-d) + " days overdue"
    else if d == 0 then "Due today"
    else if d == 1 then "Tomorrow"
    else IntToString(d) + " days left"
  }

  /** Each of the four wordings belongs to exactly one range of days. */
  lemma DaysLeftLabelCases(d: int)
    ensures var r := DaysLeftLabel(d);
      && (d < 0 <==> EndsWith(r, " days overdue"))
      && (d == 0 <==> r == "Due today")
      && (d == 1 <==> r == "Tomorrow")
      && (d >= 2 <==> EndsWith(r, " days left"))
  {
    var r := DaysLeftLabel(d);
    if d < 0 {
      assert r[|r| - 1] == 'e' && |r| >= 14;
      assert " days left"[9] == 't';
    } else if d >= 2 {
      assert r[|r| - 1] == 't' && |r| >= 11;
      assert " days overdue"[12] == 'e';
    }
  }
}
