/**
 * The backend's pagination helper: the query parameters with their bounds
 * and defaults, the optional ordering by an allowed column, and the page
 * arithmetic of the response.  The query is the sequence of its rows in
 * the order the database returns them.
 */
module Pagination {
  import opened Common
  import opened Sorting

  /** `PaginationParams`. */
  datatype Params = Params(page: int, size: int, sortBy: Option<string>, sortOrder: string)

  /** The parameters a request with none of them gets. */
  const Defaults: Params := Params(1, 50, None, "desc")

  /** page > 0, 0 < size <= 100, sort order "asc" or "desc". */
  predicate ValidParams(p: Params)
  {
    p.page > 0 && 0 < p.size <= 100 && (p.sortOrder == "asc" || p.sortOrder == "desc")
  }

  /**
   * Reading the query string: an absent value takes its default; a value
   * outside its bounds is refused with 422 before the handler runs.
   */
  function ReadParams(page: Option<int>, size: Option<int>, sortBy: Option<string>, sortOrder: Option<string>): (r: Result<Params>)
  {
    var p := Params(
      if page.Some? then page.value else Defaults.page,
      if size.Some? then size.value else Defaults.size,
      sortBy,
      if sortOrder.Some? then sortOrder.value else Defaults.sortOrder);
    if ValidParams(p) then Ok(p) else Err(422, "")
  }

  /** Read parameters are valid, a request without parameters gets the defaults, and a given valid value is kept. */
  lemma ReadParamsMeaning(page: Option<int>, size: Option<int>, sortBy: Option<string>, sortOrder: Option<string>)
    ensures ReadParams(page, size, sortBy, sortOrder).Ok? ==> ValidParams(ReadParams(page, size, sortBy, sortOrder).value)
    ensures ReadParams(None, None, sortBy, None) == Ok(Defaults.(sortBy := sortBy))
    ensures page.Some? && page.value <= 0 ==> ReadParams(page, size, sortBy, sortOrder) == Err(422, "")
    ensures size.Some? && (size.value <= 0 || size.value > 100) ==> ReadParams(page, size, sortBy, sortOrder) == Err(422, "")
    ensures ReadParams(page, size, sortBy, sortOrder).Ok? ==>
      var p := ReadParams(page, size, sortBy, sortOrder).value;
      (page.Some? ==> p.page == page.value) && (size.Some? ==> p.size == size.value) && p.sortBy == sortBy
  {
  }

  /** How the query is ordered before counting and slicing. */
  datatype Ordering = Unordered | OrderBy(column: string, descending: bool)

  /**
   * The sort is applied only for a non-empty `sort_by` that a non-empty
   * allowed list names and the model has as an attribute; "desc" sorts
   * descending and any other order ascending.
   */
  function OrderingOf(p: Params, allowed: seq<string>, attributes: set<string>): (o: Ordering)
  {
    if p.sortBy.Some? && p.sortBy.value != "" && |allowed| > 0
      && p.sortBy.value in allowed && p.sortBy.value in attributes
    then OrderBy(p.sortBy.value, p.sortOrder == "desc")
    else Unordered
  }

  lemma OrderingMeaning(p: Params, allowed: seq<string>, attributes: set<string>)
    ensures OrderingOf(p, allowed, attributes).OrderBy? <==>
      p.sortBy.Some? && p.sortBy.value in allowed && p.sortBy.value in attributes && p.sortBy.value != ""
    ensures OrderingOf(p, allowed, attributes).OrderBy? ==>
      OrderingOf(p, allowed, attributes) == OrderBy(p.sortBy.value, p.sortOrder == "desc")
    ensures allowed == [] ==> OrderingOf(p, allowed, attributes) == Unordered
  {
  }

  /** A comparator reversed, for a descending sort. */
  function Descending<T>(le: (T, T) -> bool): (T, T) -> bool
  {
    (a: T, b: T) => le(b, a)
  }

  /**
   * `order_by` on a query that is already ordered: the earlier key decides,
   * and the new one only orders rows the earlier key ties.
   */
  function ThenBy<T>(first: (T, T) -> bool, second: (T, T) -> bool): (T, T) -> bool
  {
    (a: T, b: T) => first(a, b) && (first(b, a) ==> second(a, b))
  }

  lemma ThenByIsTotalPreorder<T(!new)>(first: (T, T) -> bool, second: (T, T) -> bool)
    requires TotalPreorder(first) && TotalPreorder(second)
    ensures TotalPreorder(ThenBy(first, second))
  {
    var t := ThenBy(first, second);
    forall a, b, c | t(a, b) && t(b, c)
      ensures t(a, c)
    {
      if first(c, a) {
        assert first(c, b) && first(b, a);
      }
    }
  }

  /** The column's comparator, reversed for a descending sort. */
  function ColumnOrder<T>(c: string, descending: bool, columnLe: string -> ((T, T) -> bool)): (T, T) -> bool
  {
    if descending then Descending(columnLe(c)) else columnLe(c)
  }

  /**
   * The rows in the order the query returns them.  `prior` is the query's
   * own ORDER BY, if it has one; the pagination's column is appended after
   * it.  Rows every key ties come back in storage order.
   */
  function Ordered<T>(rows: seq<T>, prior: Option<(T, T) -> bool>, o: Ordering, columnLe: string -> ((T, T) -> bool)): seq<T>
  {
    match o
    case Unordered => if prior.Some? then Sort(rows, prior.value) else rows
    case OrderBy(c, d) =>
      var key := ColumnOrder(c, d, columnLe);
      Sort(rows, if prior.Some? then ThenBy(prior.value, key) else key)
  }

  /**
   * An ordered query holds the same rows.  The query's own order comes
   * first, and among rows it ties the column's comparator (or its reverse)
   * decides.
   */
  lemma OrderedMeaning<T(!new)>(rows: seq<T>, prior: Option<(T, T) -> bool>, o: Ordering, columnLe: string -> ((T, T) -> bool))
    requires prior.Some? ==> TotalPreorder(prior.value)
    requires o.OrderBy? ==> TotalPreorder(columnLe(o.column))
    ensures var r := Ordered(rows, prior, o, columnLe);
      && multiset(r) == multiset(rows)
      && (prior.Some? ==> forall i, j :: 0 <= i < j < |r| ==> prior.value(r[i], r[j]))
      && (o.OrderBy? ==> forall i, j :: 0 <= i < j < |r| && (prior.None? || prior.value(r[j], r[i])) ==>
            if o.descending then columnLe(o.column)(r[j], r[i]) else columnLe(o.column)(r[i], r[j]))
  {
    var r := Ordered(rows, prior, o, columnLe);
    if o.OrderBy? {
      var le := columnLe(o.column);
      var key := ColumnOrder(o.column, o.descending, columnLe);
      assert TotalPreorder(key) by {
        assert forall a, b :: key(a, b) == (if o.descending then le(b, a) else le(a, b));
      }
      if prior.Some? {
        ThenByIsTotalPreorder(prior.value, key);
        SortSorted(rows, ThenBy(prior.value, key));
      } else {
        SortSorted(rows, key);
      }
      forall i, j | 0 <= i < j < |r| && (prior.None? || prior.value(r[j], r[i]))
        ensures if o.descending then le(r[j], r[i]) else le(r[i], r[j])
      {
        assert key(r[i], r[j]);
      }
    } else if prior.Some? {
      SortSorted(rows, prior.value);
    }
  }

  /** `PaginatedResponse`. */
  datatype Page<T> = Page(items: seq<T>, total: nat, page: int, size: int, pages: int, hasNext: bool, hasPrev: bool)

  function Min(a: int, b: int): int
  {
    if a <= b then a else b
  }

  /**
   * `paginate_query` on the (already ordered) rows: count them, skip
   * `(page - 1) * size`, take `size`, and work out the page count and the
   * neighbour flags.
   */
  function Paginate<T>(rows: seq<T>, p: Params): (r: Page<T>)
    requires ValidParams(p)
  {
    var offset := Offset(p);
    var total := |rows|;
    var pages := (total + p.size - 1) / p.size;
    Page(rows[Min(offset, total)..Min(offset + p.size, total)], total, p.page, p.size, pages,
      p.page < pages, p.page > 1)
  }

  /** The rows skipped before the page: `(page - 1) * size`. */
  function Offset(p: Params): (o: nat)
    requires ValidParams(p)
  {
    MulMono(0, p.page - 1, p.size);
    (p.page - 1) * p.size
  }

  /** `a <= b` carries over to multiples. */
  lemma MulMono(a: int, b: int, c: nat)
    requires a <= b
    ensures a * c <= b * c
  {
  }

  /** Bounds of the ceiling division the page count uses. */
  lemma CeilingBounds(n: nat, s: int)
    requires s > 0
    ensures var q := (n + s - 1) / s; q * s <= n + s - 1 < q * s + s && q >= 0
  {
  }

  /**
   * The page count is the ceiling of total / size: no page is missing and
   * none is empty; with no rows there are no pages.
   */
  lemma PagesIsCeiling<T>(rows: seq<T>, p: Params)
    requires ValidParams(p)
    ensures var r := Paginate(rows, p);
      && r.pages >= 0
      && r.pages * p.size >= |rows|
      && (r.pages - 1) * p.size < |rows| + (if |rows| == 0 then p.size else 0)
      && (r.pages == 0 <==> |rows| == 0)
  {
    assert Paginate(rows, p).pages == (|rows| + p.size - 1) / p.size;
    Ceiling(|rows|, p.size);
  }

  /** The ceiling division: `q` pages of `s` cover `n` rows, and one page fewer does not. */
  lemma Ceiling(n: nat, s: int)
    requires s > 0
    ensures var q := (n + s - 1) / s;
      && q >= 0 && q * s >= n
      && (q - 1) * s < n + (if n == 0 then s else 0)
      && (q == 0 <==> n == 0)
  {
    var q := (n + s - 1) / s;
    CeilingBounds(n, s);
    assert (q - 1) * s == q * s - s;
    if n == 0 && q >= 1 {
      MulMono(1, q, s);
    }
  }

  /**
   * The response counts every row whatever the page, echoes page and size,
   * has a previous page exactly after the first, and has a next page exactly
   * when rows remain after this one.
   */
  lemma PageFlags<T>(rows: seq<T>, p: Params)
    requires ValidParams(p)
    ensures var r := Paginate(rows, p);
      && r.total == |rows| && r.page == p.page && r.size == p.size
      && (r.hasPrev <==> p.page > 1)
      && (r.hasNext <==> p.page * p.size < |rows|)
  {
    var n, s := |rows|, p.size;
    var q := (n + s - 1) / s;
    CeilingBounds(n, s);
    assert (q - 1) * s == q * s - s;
    if p.page < q {
      MulMono(p.page, q - 1, s);
      assert p.page * s < n;
    } else {
      MulMono(q, p.page, s);
      assert p.page * s >= n;
    }
  }

  /**
   * The items are the rows from `(page - 1) * size` on, at most `size` of
   * them; a page past the last one is empty.
   */
  lemma PageItems<T>(rows: seq<T>, p: Params)
    requires ValidParams(p)
    ensures var r := Paginate(rows, p);
      && |r.items| <= p.size
      && (forall i :: 0 <= i < |r.items| ==> r.items[i] == rows[Offset(p) + i])
      && (p.page > r.pages ==> r.items == [])
      && (p.page < r.pages ==> |r.items| == p.size)
  {
    var n, s := |rows|, p.size;
    var q := (n + s - 1) / s;
    assert Paginate(rows, p).pages == q;
    PageBeyondOrWithin(n, s, p.page);
  }

  /** Past the last page the offset passes every row; before it a whole page of rows remains. */
  lemma PageBeyondOrWithin(n: nat, s: int, page: int)
    requires s > 0 && page > 0
    ensures var q := (n + s - 1) / s;
      && (page > q ==> (page - 1) * s >= n)
      && (page < q ==> page * s <= n)
  {
    var q := (n + s - 1) / s;
    CeilingBounds(n, s);
    if page > q {
      MulMono(q, page - 1, s);
    }
    if page < q {
      MulMono(page, q - 1, s);
    }
  }

  /** Every row appears on exactly one page: row k is item k % size of page k / size + 1. */
  lemma RowOnItsPage<T>(rows: seq<T>, p: Params, k: int)
    requires ValidParams(p) && 0 <= k < |rows|
    requires p.page == k / p.size + 1
    ensures k % p.size < |Paginate(rows, p).items|
    ensures Paginate(rows, p).items[k % p.size] == rows[k]
  {
    var s := p.size;
    assert k == (k / s) * s + k % s;
    assert (p.page - 1) * s == (k / s) * s;
    PageItems(rows, p);
    MulMono(0, k / s, s);
  }
}
