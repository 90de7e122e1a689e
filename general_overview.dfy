/**
 * The general overview page: a text filter over title, location and client
 * name plus a status filter, the sortable table (with a client column), the
 * summary counters and the "Showing {count} projects" line.
 */
module GeneralOverview {
  import opened Common
  import opened Text
  import opened Entities
  import opened Sorting
  import opened ProjectSort
  import I18n
  import Overview

  /** The text filter (title, location or client name, "" without a client) and the status filter ("All" or an exact status). */
  function Matches(filter: string, statusFilter: string): Project -> bool
  {
    (p: Project) =>
      var f := Lower(filter);
      (Contains(Lower(p.title), f) || Contains(Lower(p.location), f) || Contains(Lower(ClientNameOrEmpty(p)), f))
      && (statusFilter == "All" || p.status == statusFilter)
  }

  /** `sortedAndFilteredProjects`. */
  function Visible(projects: seq<Project>, filter: string, statusFilter: string, field: SortField, dir: Direction): seq<Project>
  {
    Sort(Filter(projects, Matches(filter, statusFilter)), Le(field, dir))
  }

  /**
   * The table shows exactly the projects passing both filters, each as often
   * as in the input, ordered by the column in the chosen direction.
   */
  lemma VisibleMeaning(projects: seq<Project>, filter: string, statusFilter: string, field: SortField, dir: Direction)
    ensures var v := Visible(projects, filter, statusFilter, field, dir);
      multiset(v) == multiset(Filter(projects, Matches(filter, statusFilter)))
      && Sorted(v, Le(field, dir))
    ensures forall p :: p in Visible(projects, filter, statusFilter, field, dir) <==>
      p in projects && Matches(filter, statusFilter)(p)
    ensures statusFilter != "All" ==> forall p :: p in Visible(projects, filter, statusFilter, field, dir) ==> p.status == statusFilter
  {
    var kept := Filter(projects, Matches(filter, statusFilter));
    var v := Visible(projects, filter, statusFilter, field, dir);
    LeIsTotalPreorder(field, dir);
    SortSorted(kept, Le(field, dir));
    FilterMembers(projects, Matches(filter, statusFilter));
    forall p
      ensures p in v <==> p in kept
    {
      assert p in multiset(v) <==> p in multiset(kept);
    }
  }

  datatype Summary = Summary(total: nat, active: nat, completed: nat, highRisk: nat)

  function IsHighRisk(p: Project): bool
  {
    p.risk == "Critical" || p.risk == "At Risk"
  }

  /** `summaryStats`, over all projects whatever the filters. */
  function SummaryStats(projects: seq<Project>): Summary
  {
    Summary(|projects|, Count(projects, Overview.IsActive), Count(projects, Overview.IsFinished), Count(projects, IsHighRisk))
  }

  /**
   * Active and completed add up to the total, and the high-risk counter is
   * the project overview's critical plus at-risk counters.
   */
  lemma SummaryAgreesWithOverview(projects: seq<Project>)
    ensures var s := SummaryStats(projects);
      var o := Overview.SummaryStats(projects);
      s.active + s.completed == s.total
      && s.total == o.total && s.active == o.active && s.completed == o.completed
      && s.highRisk == o.critical + o.atRisk
  {
    Overview.SummaryAddsUp(projects);
    HighRiskSplits(projects);
  }

  lemma {:induction false} HighRiskSplits(projects: seq<Project>)
    ensures Count(projects, IsHighRisk)
      == Count(projects, Overview.HasRisk("Critical")) + Count(projects, Overview.HasRisk("At Risk"))
  {
    if projects != [] {
      HighRiskSplits(projects[1..]);
    }
  }

  /** "Showing {count} projects" with the first "{count}" replaced by the number of rows. */
  function ShowingLine(dict: I18n.Dictionary, rows: nat): string
  {
    ReplaceFirst(I18n.T(dict, "showingProjects"), "{count}", IntToString(rows))
  }

  lemma ShowingLineText(lang: I18n.Lang, rows: nat)
    ensures lang == I18n.En ==> ShowingLine(I18n.Dict(lang), rows) == "Showing " + IntToString(rows) + " projects"
    ensures lang == I18n.Es ==> ShowingLine(I18n.Dict(lang), rows) == "Mostrando " + IntToString(rows) + " asuntos"
  {
    I18n.ShowingProjectsTexts(lang);
    EnglishShowingLine(rows);
    SpanishShowingLine(rows);
  }

  lemma EnglishShowingLine(rows: nat)
    ensures ReplaceFirst("Showing {count} projects", "{count}", IntToString(rows)) == "Showing " + IntToString(rows) + " projects"
  {
    assert "Showing {count} projects" == "Showing " + "{count}" + " projects";
    ReplaceFirstAt("Showing ", "{count}", " projects", IntToString(rows));
  }

  lemma SpanishShowingLine(rows: nat)
    ensures ReplaceFirst("Mostrando {count} asuntos", "{count}", IntToString(rows)) == "Mostrando " + IntToString(rows) + " asuntos"
  {
    assert "Mostrando {count} asuntos" == "Mostrando " + "{count}" + " asuntos";
    ReplaceFirstAt("Mostrando ", "{count}", " asuntos", IntToString(rows));
  }

  /** The line under the date: "<n>d overdue" or "<n>d left" (with "0d left" on the day itself). */
  function DaysLeftLabel(d: int): string
  {
    if d < 0 then IntToString(-d) + "d overdue" else IntToString(d) + "d left"
  }

  lemma DaysLeftLabelCases(d: int)
    ensures d < 0 <==> EndsWith(DaysLeftLabel(d), "d overdue")
    ensures d >= 0 <==> EndsWith(DaysLeftLabel(d), "d left")
  {
    var r := DaysLeftLabel(d);
    if d < 0 {
      assert r[|r| - 1] == 'e';
      assert "d left"[5] == 't';
    } else {
      assert r[|r| - 1] == 't';
      assert "d overdue"[8] == 'e';
    }
  }
}
