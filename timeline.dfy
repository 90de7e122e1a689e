/**
 * The Gantt-style timeline of a matter: the span from the earliest to the
 * latest date of its items, the number of day columns, and where each bar
 * starts and ends on the CSS grid (grid lines are numbered from 1).
 */
module Timeline {
  import opened Common
  import opened Entities

  /** Most day columns the compact timeline draws. */
  const MaxColumns: nat := 30

  /** Start and end dates of every item (`items.flatMap(i => [start, end])`). */
  function Endpoints(items: seq<TimelineItem>): (r: seq<int>)
    ensures |r| == 2 * |items|
  {
    if items == [] then [] else [items[0].startDate, items[0].endDate] + Endpoints(items[1..])
  }

  /** `Math.min(...dates)`. */
  function Least(s: seq<int>): (m: int)
    requires |s| > 0
  {
    if |s| == 1 then s[0]
    else
      var rest := Least(s[1..]);
      if s[0] <= rest then s[0] else rest
  }

  /** `Math.max(...dates)`. */
  function Greatest(s: seq<int>): (m: int)
    requires |s| > 0
  {
    if |s| == 1 then s[0]
    else
      var rest := Greatest(s[1..]);
      if s[0] >= rest then s[0] else rest
  }

  lemma {:induction false} LeastIsMinimum(s: seq<int>)
    requires |s| > 0
    ensures Least(s) in s && forall x :: x in s ==> Least(s) <= x
  {
    if |s| > 1 {
      LeastIsMinimum(s[1..]);
      assert s == [s[0]] + s[1..];
    }
  }

  lemma {:induction false} GreatestIsMaximum(s: seq<int>)
    requires |s| > 0
    ensures Greatest(s) in s && forall x :: x in s ==> x <= Greatest(s)
  {
    if |s| > 1 {
      GreatestIsMaximum(s[1..]);
      assert s == [s[0]] + s[1..];
    }
  }

  lemma {:induction false} EndpointsMembers(items: seq<TimelineItem>)
    ensures forall it :: it in items ==> it.startDate in Endpoints(items) && it.endDate in Endpoints(items)
  {
    if items != [] {
      EndpointsMembers(items[1..]);
    }
  }

  /** The first and last day shown, and the bars to draw. */
  datatype Span = Span(start: int, end: int)

  /** The span of the items; with no items both ends are `today` (`new Date()`) and there are no rows. */
  function SpanOf(items: seq<TimelineItem>, today: int): Span
  {
    if items == [] then Span(today, today)
    else Span(Least(Endpoints(items)), Greatest(Endpoints(items)))
  }

  /** Every date of every item lies within the span, and both ends are dates of items. */
  lemma SpanCoversItems(items: seq<TimelineItem>, today: int)
    requires items != []
    ensures var sp := SpanOf(items, today);
      && sp.start <= sp.end
      && (forall it :: it in items ==> sp.start <= it.startDate <= sp.end && sp.start <= it.endDate <= sp.end)
      && sp.start in Endpoints(items) && sp.end in Endpoints(items)
  {
    LeastIsMinimum(Endpoints(items));
    GreatestIsMaximum(Endpoints(items));
    EndpointsMembers(items);
  }

  /** `Math.max(1, daysBetween(start, end) + 1)`. */
  function TotalDays(sp: Span): (n: int)
    ensures n >= 1
  {
    if sp.end - sp.start + 1 >= 1 then sp.end - sp.start + 1 else 1
  }

  /** The clamped day offsets of one bar and its grid lines. */
  datatype Bar = Bar(startOffset: int, endOffset: int, cssStart: int, cssEnd: int)

  /** The start offset is clamped at day 0 and the end offset at `totalDays`; a bar spans at least one column. */
  function BarOf(sp: Span, it: TimelineItem): Bar
  {
    var totalDays := TotalDays(sp);
    var startOffset := if it.startDate - sp.start >= 0 then it.startDate - sp.start else 0;
    var endOffset := if it.endDate - sp.start + 1 <= totalDays then it.endDate - sp.start + 1 else totalDays;
    var cssStart := startOffset + 1;
    Bar(startOffset, endOffset, cssStart, if cssStart + 1 >= endOffset + 1 then cssStart + 1 else endOffset + 1)
  }

  /** Every bar starts on line 1 or later, ends by `totalDays`, and spans at least one column. */
  lemma BarBounds(sp: Span, it: TimelineItem)
    ensures var b := BarOf(sp, it);
      && 0 <= b.startOffset && b.endOffset <= TotalDays(sp)
      && b.cssStart == b.startOffset + 1 >= 1
      && b.cssEnd >= b.cssStart + 1
      && (b.endOffset > b.cssStart ==> b.cssEnd == b.endOffset + 1)
  {
  }

  /**
   * For an item of the timeline's own span the clamps never fire: its bar
   * runs from its start day to the day after its end day (at least one day).
   */
  lemma BarsOfItemsUnclamped(items: seq<TimelineItem>, today: int, it: TimelineItem)
    requires it in items
    ensures var sp := SpanOf(items, today);
      var b := BarOf(sp, it);
      b.cssStart == it.startDate - sp.start + 1
      && b.cssStart <= TotalDays(sp)
      && (it.startDate <= it.endDate ==> b.cssEnd == it.endDate - sp.start + 2)
  {
    SpanCoversItems(items, today);
  }

  /** The rows drawn: one bar per item, in item order. */
  function Bars(items: seq<TimelineItem>, today: int): (r: seq<Bar>)
    ensures |r| == |items|
  {
    var sp := SpanOf(items, today);
    Map(items, it => BarOf(sp, it))
  }

  /** `Math.min(30, totalDays)` columns. */
  function Columns(sp: Span): (n: int)
    ensures 1 <= n <= MaxColumns
    ensures n == MaxColumns || n == TotalDays(sp)
  {
    if TotalDays(sp) <= MaxColumns then TotalDays(sp) else MaxColumns
  }

  /** With no items there are no rows and a one-day span. */
  lemma NoItemsNoRows(today: int)
    ensures Bars([], today) == [] && TotalDays(SpanOf([], today)) == 1
  {
  }

  /** For a non-empty timeline, the day count is the span's length in days. */
  lemma TotalDaysIsSpanLength(items: seq<TimelineItem>, today: int)
    requires items != []
    ensures TotalDays(SpanOf(items, today)) == SpanOf(items, today).end - SpanOf(items, today).start + 1
  {
    SpanCoversItems(items, today);
  }
}
