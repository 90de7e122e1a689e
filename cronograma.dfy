/**
 * The schedule page (Cronograma): the timeline of the matter drawn over all
 * of its days, and the deadline alerts, which are the calendar page's list
 * (`CalendarView.Upcoming`), under a translated badge.
 */
module Cronograma {
  import opened Common
  import opened Text
  import opened Entities
  import Timeline
  import CalendarView
  import I18n

  /** Unlike the compact timeline, every day of the span gets a column. */
  function Columns(items: seq<TimelineItem>, today: int): (n: int)
    ensures n >= 1
  {
    Timeline.TotalDays(Timeline.SpanOf(items, today))
  }

  /** The compact timeline caps its columns at 30; this page never caps them. */
  lemma MoreColumnsThanCompact(items: seq<TimelineItem>, today: int)
    ensures Timeline.Columns(Timeline.SpanOf(items, today)) <= Columns(items, today)
    ensures Columns(items, today) <= Timeline.MaxColumns ==>
      Timeline.Columns(Timeline.SpanOf(items, today)) == Columns(items, today)
  {
  }

  /**
   * The badge: `t("overdueCount")` with "{count}" replaced when there are
   * overdue alerts, `t("noOverdue")` otherwise, in the page's dictionary.
   */
  function Badge(dict: I18n.Dictionary, overdue: seq<CalendarView.Alert>): string
  {
    if |overdue| > 0 then ReplaceFirst(I18n.T(dict, "overdueCount"), "{count}", IntToString(|overdue|))
    else I18n.T(dict, "noOverdue")
  }

  /** A dictionary without the two keys shows them bare, with no count in the first. */
  lemma BadgeOfMissingKeys(dict: I18n.Dictionary, overdue: seq<CalendarView.Alert>)
    requires I18n.T(dict, "overdueCount") == "overdueCount" && I18n.T(dict, "noOverdue") == "noOverdue"
    ensures |overdue| > 0 ==> Badge(dict, overdue) == "overdueCount"
    ensures |overdue| == 0 ==> Badge(dict, overdue) == "noOverdue"
  {
    ReplaceFirstAbsent("overdueCount", "{count}", IntToString(|overdue|));
  }

  /**
   * Neither dictionary defines the two badge keys, so in either language the
   * badge shows the bare key "overdueCount" (with no count in it) or "noOverdue".
   */
  lemma BadgeShowsKeys(lang: I18n.Lang, overdue: seq<CalendarView.Alert>)
    ensures |overdue| > 0 ==> Badge(I18n.Dict(lang), overdue) == "overdueCount"
    ensures |overdue| == 0 ==> Badge(I18n.Dict(lang), overdue) == "noOverdue"
  {
    I18n.ScheduleBadgeKeysMissing(lang);
    BadgeOfMissingKeys(I18n.Dict(lang), overdue);
  }
}
