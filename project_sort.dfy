/**
 * The sortable project tables of the two overview pages: the key each
 * column sorts by, the comparator built from it, and the header-click state
 * (`sortField`, `sortDirection`, `handleSort`).
 */
module ProjectSort {
  import opened Common
  import opened Text
  import opened Entities
  import opened Sorting

  /** The sortable columns; only the general overview offers `ClientCol`. */
  datatype SortField = TitleCol | StatusCol | LocationCol | RiskCol | TargetCloseCol | ClientCol

  datatype Direction = Asc | Desc

  /**
   * What a column compares: lower-cased text, the time of a target close
   * date, or `Infinity` for a project without one.
   */
  datatype Key = Text(s: string) | Day(d: int) | Infinity

  /**
   * The `<` of the comparator on keys. The keys of one column are always of
   * one kind; across kinds the order is text, then days, then `Infinity`.
   */
  predicate KeyLess(a: Key, b: Key)
  {
    match a
    case Text(x) => if b.Text? then LexLess(x, b.s) else true
    case Day(x) => if b.Day? then x < b.d else b.Infinity?
    case Infinity => false
  }

  /** `a.client?.name || ""`. */
  function ClientNameOrEmpty(p: Project): string
  {
    if p.client.Some? then p.client.value.name else ""
  }

  /** The value the comparator reads from a project for a column, after lower-casing text. */
  function SortKey(field: SortField, p: Project): (k: Key)
    ensures field == TargetCloseCol ==> (k == Infinity <==> p.targetCloseDate.None?)
    ensures field != TargetCloseCol ==> k.Text?
  {
    match field
    case TitleCol => Text(Lower(p.title))
    case StatusCol => Text(Lower(p.status))
    case LocationCol => Text(Lower(p.location))
    case RiskCol => Text(Lower(p.risk))
    case ClientCol => Text(Lower(ClientNameOrEmpty(p)))
    case TargetCloseCol => if p.targetCloseDate.Some? then Day(p.targetCloseDate.value) else Infinity
  }

  /**
   * "a may stay before b": the comparator returns -1 or 0. Ascending, that is
   * "b's key is not below a's"; descending, "a's key is not below b's".
   */
  function Le(field: SortField, dir: Direction): (Project, Project) -> bool
  {
    (a: Project, b: Project) =>
      if dir == Asc then !KeyLess(SortKey(field, b), SortKey(field, a))
      else !KeyLess(SortKey(field, a), SortKey(field, b))
  }

  lemma KeyLessAsymmetric(a: Key, b: Key)
    ensures !(KeyLess(a, b) && KeyLess(b, a))
  {
    if a.Text? && b.Text? {
      LexLessAsymmetric(a.s, b.s);
    }
  }

  lemma KeyLessTransitive(a: Key, b: Key, c: Key)
    requires KeyLess(a, b) && KeyLess(b, c)
    ensures KeyLess(a, c)
  {
    if a.Text? && b.Text? && c.Text? {
      LexLessTransitive(a.s, b.s, c.s);
    }
  }

  lemma KeyLessTrichotomy(a: Key, b: Key)
    ensures KeyLess(a, b) || a == b || KeyLess(b, a)
  {
    if a.Text? && b.Text? {
      LexLessTrichotomy(a.s, b.s);
    }
  }

  /** "Not below" is total and transitive on keys. */
  lemma KeyNotLessTransitive(a: Key, b: Key, c: Key)
    requires !KeyLess(b, a) && !KeyLess(c, b)
    ensures !KeyLess(c, a)
  {
    if KeyLess(c, a) {
      KeyLessTrichotomy(c, b);
      if KeyLess(b, c) {
        KeyLessTransitive(b, c, a);
      }
    }
  }

  /** Every column and direction gives a comparator the stable sort can use. */
  lemma LeIsTotalPreorder(field: SortField, dir: Direction)
    ensures TotalPreorder(Le(field, dir))
  {
    var le := Le(field, dir);
    forall a: Project, b: Project
      ensures le(a, b) || le(b, a)
    {
      KeyLessAsymmetric(SortKey(field, a), SortKey(field, b));
    }
    forall a: Project, b: Project, c: Project | le(a, b) && le(b, c)
      ensures le(a, c)
    {
      var ka, kb, kc := SortKey(field, a), SortKey(field, b), SortKey(field, c);
      if dir == Asc {
        KeyNotLessTransitive(ka, kb, kc);
      } else {
        KeyNotLessTransitive(kc, kb, ka);
      }
    }
  }

  /**
   * A list sorted with `Le`: ascending, each project's key is at most every
   * later one's; descending, at least.
   */
  lemma SortedMeaning(s: seq<Project>, field: SortField, dir: Direction, i: int, j: int)
    requires Sorted(s, Le(field, dir)) && 0 <= i < j < |s|
    ensures dir == Asc ==> !KeyLess(SortKey(field, s[j]), SortKey(field, s[i]))
    ensures dir == Desc ==> !KeyLess(SortKey(field, s[i]), SortKey(field, s[j]))
  {
    assert Le(field, dir)(s[i], s[j]);
  }

  /**
   * The rows of a table: `sorted` is a permutation of the filtered rows,
   * ordered by the column, with ties in input order.
   */
  lemma SortMeaning(rows: seq<Project>, field: SortField, dir: Direction, c: Project)
    ensures multiset(Sort(rows, Le(field, dir))) == multiset(rows)
    ensures Sorted(Sort(rows, Le(field, dir)), Le(field, dir))
    ensures Filter(Sort(rows, Le(field, dir)), Ties(c, Le(field, dir))) == Filter(rows, Ties(c, Le(field, dir)))
  {
    LeIsTotalPreorder(field, dir);
    SortSorted(rows, Le(field, dir));
    SortStable(rows, Le(field, dir), c);
  }

  /**
   * Ascending by target close date, projects without a date come last;
   * descending, first.
   */
  lemma MissingDateIsInfinity(s: seq<Project>, dir: Direction, i: int, j: int)
    requires Sorted(s, Le(TargetCloseCol, dir)) && 0 <= i < j < |s|
    ensures dir == Asc && s[i].targetCloseDate.None? ==> s[j].targetCloseDate.None?
    ensures dir == Desc && s[j].targetCloseDate.None? ==> s[i].targetCloseDate.None?
  {
    SortedMeaning(s, TargetCloseCol, dir, i, j);
  }

  /** Ascending by client, projects without a client (sorted as "") come before any with a non-empty name. */
  lemma NoClientFirst(s: seq<Project>, i: int, j: int)
    requires Sorted(s, Le(ClientCol, Asc)) && 0 <= i < j < |s|
    requires s[j].client.None?
    ensures Lower(ClientNameOrEmpty(s[i])) == ""
  {
    SortedMeaning(s, ClientCol, Asc, i, j);
  }

  /** The next column and direction after a click on the header of `clicked`. */
  function NextSort(field: SortField, dir: Direction, clicked: SortField): (r: (SortField, Direction))
    ensures r.0 == clicked
    ensures clicked == field ==> r.1 != dir
    ensures clicked != field ==> r.1 == Asc
  {
    if clicked == field then (field, if dir == Asc then Desc else Asc)
    else (clicked, Asc)
  }

  /** Two clicks on the same header restore the direction; a new column starts ascending, then descending. */
  lemma ClickTwice(field: SortField, dir: Direction, clicked: SortField)
    ensures var r := NextSort(field, dir, clicked);
      clicked == field ==> NextSort(r.0, r.1, clicked) == (field, dir)
    ensures var r := NextSort(field, dir, clicked);
      clicked != field ==> NextSort(r.0, r.1, clicked) == (clicked, Desc)
  {
  }

  /** The header-click state of a table. */
  class SortState {
    var field: SortField
    var direction: Direction

    /** Both pages open sorted by target close date, ascending. */
    constructor()
      ensures field == TargetCloseCol && direction == Asc
    {
      field := TargetCloseCol;
      direction := Asc;
    }

    /** `handleSort`: the same column flips the direction, another one is selected ascending. */
    method HandleSort(clicked: SortField)
      modifies this
      ensures (field, direction) == NextSort(old(field), old(direction), clicked)
    {
      if field == clicked {
        direction := if direction == Asc then Desc else Asc;
      } else {
        field := clicked;
        direction := Asc;
      }
    }
  }
}
