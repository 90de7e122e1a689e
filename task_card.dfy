/**
 * The task card of the board: the priority dot, the due-date tone and the
 * meta line under the title.
 */
module TaskCard {
  import opened Common
  import opened Entities
  import Dates
  import App
  import Overview

  /** The CSS class a dot takes: "dot" (neutral), "bad", "warn" or "ok". */
  datatype Tone = Neutral | Bad | Warn | Good

  function ToneClass(t: Tone): string
  {
    match t
    case Neutral => "dot"
    case Bad => "bad"
    case Warn => "warn"
    case Good => "ok"
  }

  /** `dot(priority)`: only the Spanish priorities "Alta" and "Media" stand out. */
  function PriorityDot(priority: string): (t: Tone)
    ensures t != Neutral
  {
    if priority == "Alta" then Bad
    else if priority == "Media" then Warn
    else Good
  }

  /**
   * The dot is red exactly for "Alta" and amber exactly for "Media"; every
   * other priority, the English "High" and "Medium" the table offers and the
   * backend stores included, gets the calm dot.
   */
  lemma PriorityDotCases(priority: string)
    ensures PriorityDot(priority) == Bad <==> priority == "Alta"
    ensures PriorityDot(priority) == Warn <==> priority == "Media"
    ensures priority in ["Low", "Medium", "High"] ==> PriorityDot(priority) == Good
  {
  }

  /** `dueTone`: no date is neutral; then overdue, within a week, or later, by whole days from today. */
  function DueTone(due: Option<int>, today: int): (t: Tone)
    ensures t == Neutral <==> due.None?
  {
    match due
    case None => Neutral
    case Some(d) =>
      var diff := Dates.DaysUntil(d, today);
      if diff < 0 then Bad
      else if diff <= 7 then Warn
      else Good
  }

  /**
   * The tone follows the date alone: red before today, amber from today to
   * seven days ahead, green after that.
   */
  lemma DueToneCases(due: Option<int>, today: int)
    ensures DueTone(due, today) == Bad <==> due.Some? && due.value < today
    ensures DueTone(due, today) == Warn <==> due.Some? && today <= due.value <= today + 7
    ensures DueTone(due, today) == Good <==> due.Some? && today + 7 < due.value
  {
  }

  /**
   * The card's tone and the overview's urgency agree on the days left, and
   * for an open task the card is red or amber exactly when the dashboard
   * counts it as overdue or due soon. A "Done" task keeps its tone.
   */
  lemma DueToneAgrees(t: Task, today: int)
    ensures DueTone(t.dueDate, today) == Bad <==> Overview.UrgencyOf(App.DaysUntil(t.dueDate, today)) == Overview.Overdue
    ensures DueTone(t.dueDate, today) == Warn <==> Overview.UrgencyOf(App.DaysUntil(t.dueDate, today)) == Overview.DueSoon
    ensures t.status != "Done" ==>
      (DueTone(t.dueDate, today) == Bad <==> App.OverdueOpen(today)(t))
      && (DueTone(t.dueDate, today) == Warn <==> App.DueSoon(today)(t))
  {
  }

  /** The date shown on the card: the ISO date, or "No due date". */
  function DueText(due: Option<int>): string
  {
    if due.Some? then Dates.IsoDate(due.value) else "No due date"
  }

  /** `task.tags ? … : null`: an absent or empty tag string renders nothing. */
  predicate ShowsTags(tags: Option<string>)
  {
    tags.Some? && tags.value != ""
  }

  /** The spans of the meta line after the tone dot. */
  function MetaLine(t: Task): seq<string>
  {
    [t.assignee, "·", DueText(t.dueDate)] + (if ShowsTags(t.tags) then ["·", t.tags.value] else [])
  }

  /**
   * The meta line is assignee · date, followed by · tags only for non-empty
   * tags; a dated task in Python's date range never reads "No due date".
   */
  lemma MetaLineShape(t: Task)
    ensures |MetaLine(t)| == if ShowsTags(t.tags) then 5 else 3
    ensures MetaLine(t)[0] == t.assignee
    ensures ShowsTags(t.tags) ==> MetaLine(t)[4] == t.tags.value
    ensures t.dueDate.None? ==> MetaLine(t)[2] == "No due date"
    ensures t.dueDate.Some? && Dates.InDateRange(t.dueDate.value) ==> MetaLine(t)[2] != "No due date"
  {
  }
}
