/**
 * The project calendar feed: an iCalendar (RFC 5545) text with one all-day
 * event per dated task and per milestone of the project.  Text values are
 * escaped as section 3.3.11 of RFC 5545 asks, and content lines end in
 * CRLF as section 3.1 asks.  The generation stamp is a parameter.
 */
module CalendarIcs {
  import opened Common
  import opened Text
  import opened Entities
  import Dates
  import Grouping

  /** `ics_escape`: backslash first, then ";", "," and newline, each as a backslash sequence. */
  function IcsEscape(s: string): string
  {
    ReplaceAll(ReplaceAll(ReplaceAll(ReplaceAll(s, "\\", "\\\\"), ";", "\\;"), ",", "\\,"), "\n", "\\n")
  }

  /** The escape of one character. */
  function EscapeChar(c: char): (r: string)
    ensures r != [] && '\n' !in r
  {
    if c == '\\' then "\\\\"
    else if c == ';' then "\\;"
    else if c == ',' then "\\,"
    else if c == '\n' then "\\n"
    else [c]
  }

  /** Escaping character by character. */
  function EscapeEach(s: string): string
  {
    if s == [] then [] else EscapeChar(s[0]) + EscapeEach(s[1..])
  }

  /** The chain of four replacements, each on single characters. */
  function Chain(s: string): string
  {
    ReplaceChar(ReplaceChar(ReplaceChar(ReplaceChar(s, '\\', "\\\\"), ';', "\\;"), ',', "\\,"), '\n', "\\n")
  }

  lemma ChainAppend(a: string, b: string)
    ensures Chain(a + b) == Chain(a) + Chain(b)
  {
    var a1, b1 := ReplaceChar(a, '\\', "\\\\"), ReplaceChar(b, '\\', "\\\\");
    var a2, b2 := ReplaceChar(a1, ';', "\\;"), ReplaceChar(b1, ';', "\\;");
    var a3, b3 := ReplaceChar(a2, ',', "\\,"), ReplaceChar(b2, ',', "\\,");
    ReplaceCharAppend(a, b, '\\', "\\\\");
    ReplaceCharAppend(a1, b1, ';', "\\;");
    ReplaceCharAppend(a2, b2, ',', "\\,");
    ReplaceCharAppend(a3, b3, '\n', "\\n");
  }

  lemma ReplaceCharOne(c: char, d: char, rep: string)
    ensures ReplaceChar([c], d, rep) == if c == d then rep else [c]
  {
    assert [c][1..] == [];
  }

  lemma ChainOne(c: char)
    ensures Chain([c]) == EscapeChar(c)
  {
    var e1 := ReplaceChar([c], '\\', "\\\\");
    ReplaceCharOne(c, '\\', "\\\\");
    var e2 := ReplaceChar(e1, ';', "\\;");
    if c == '\\' {
      ReplaceCharAbsent(e1, ';', "\\;");
    } else {
      ReplaceCharOne(c, ';', "\\;");
    }
    var e3 := ReplaceChar(e2, ',', "\\,");
    if c == '\\' || c == ';' {
      ReplaceCharAbsent(e2, ',', "\\,");
    } else {
      ReplaceCharOne(c, ',', "\\,");
    }
    if c == '\\' || c == ';' || c == ',' {
      ReplaceCharAbsent(e3, '\n', "\\n");
    } else {
      ReplaceCharOne(c, '\n', "\\n");
    }
  }

  lemma {:induction false} ChainIsEscapeEach(s: string)
    ensures Chain(s) == EscapeEach(s)
  {
    if s != [] {
      assert s == [s[0]] + s[1..];
      ChainAppend([s[0]], s[1..]);
      ChainOne(s[0]);
      ChainIsEscapeEach(s[1..]);
    }
  }

  /**
   * Because the backslash is replaced first, the later replacements never
   * touch a backslash the earlier ones wrote: every character is escaped
   * on its own, exactly once.
   */
  lemma IcsEscapeEach(s: string)
    ensures IcsEscape(s) == EscapeEach(s)
  {
    var s1 := ReplaceAll(s, "\\", "\\\\");
    var s2 := ReplaceAll(s1, ";", "\\;");
    var s3 := ReplaceAll(s2, ",", "\\,");
    ReplaceAllSingle(s, '\\', "\\\\");
    ReplaceAllSingle(s1, ';', "\\;");
    ReplaceAllSingle(s2, ',', "\\,");
    ReplaceAllSingle(s3, '\n', "\\n");
    ChainIsEscapeEach(s);
  }

  /**
   * Reading an escaped TEXT value back (section 3.3.11 of RFC 5545): a
   * backslash followed by "n" or "N" is a newline, followed by any other
   * character that character.
   */
  function Unescape(t: string): string
    decreases |t|
  {
    if t == [] then []
    else if t[0] == '\\' && |t| >= 2 then
      (if t[1] == 'n' || t[1] == 'N' then "\n" else [t[1]]) + Unescape(t[2..])
    else [t[0]] + Unescape(t[1..])
  }

  lemma {:induction false} UnescapeEach(s: string)
    ensures Unescape(EscapeEach(s)) == s
  {
    if s != [] {
      var rest := EscapeEach(s[1..]);
      assert EscapeEach(s) == EscapeChar(s[0]) + rest;
      UnescapeChar(s[0], rest);
      UnescapeEach(s[1..]);
      assert s == [s[0]] + s[1..];
    }
  }

  /** Unescaping reads one escaped character back and goes on after it. */
  lemma UnescapeChar(c: char, rest: string)
    ensures Unescape(EscapeChar(c) + rest) == [c] + Unescape(rest)
  {
    var e := EscapeChar(c);
    if |e| == 2 {
      assert (e + rest)[0] == '\\' && (e + rest)[1] == e[1];
      assert (e + rest)[2..] == rest;
    } else {
      assert (e + rest)[1..] == rest;
    }
  }

  /** Unescaping an escaped value gives the value back, and no escaped value holds a raw newline. */
  lemma IcsEscapeRoundTrip(s: string)
    ensures Unescape(IcsEscape(s)) == s
    ensures '\n' !in IcsEscape(s)
  {
    IcsEscapeEach(s);
    UnescapeEach(s);
    var s3 := ReplaceAll(ReplaceAll(ReplaceAll(s, "\\", "\\\\"), ";", "\\;"), ",", "\\,");
    ReplaceAllSingle(s3, '\n', "\\n");
    ReplaceCharRemoves(s3, '\n', "\\n");
  }

  /** The line terminator of section 3.1 of RFC 5545. */
  const Crlf: string := "\r\n"

  /** The five lines that open the calendar. */
  const Header: seq<string> := [
    "BEGIN:VCALENDAR",
    "VERSION:2.0",
    "PRODID:-//LawFlow//Calendar//EN",
    "CALSCALE:GREGORIAN",
    "METHOD:PUBLISH"
  ]

  const Footer: string := "END:VCALENDAR"

  /** `str(date).replace("-", "")`. */
  function CompactDate(date: int): string
  {
    ReplaceAll(Dates.IsoDate(date), "-", "")
  }

  /** Dropping a hyphen after a hyphen-free part. */
  lemma DropHyphen(a: string, b: string)
    requires '-' !in a
    ensures ReplaceChar(a + "-" + b, '-', "") == a + ReplaceChar(b, '-', "")
  {
    assert a + "-" + b == a + ("-" + b);
    ReplaceCharAppend(a, "-" + b, '-', "");
    ReplaceCharAbsent(a, '-', "");
    assert ("-" + b)[1..] == b;
    assert ReplaceChar("-" + b, '-', "") == ReplaceChar(b, '-', "");
  }

  /** Dropping the two hyphens of "y-m-d" when the parts have none. */
  lemma DropHyphens(y: string, m: string, d: string)
    requires '-' !in y && '-' !in m && '-' !in d
    ensures ReplaceChar(y + "-" + m + "-" + d, '-', "") == y + m + d
  {
    assert y + "-" + m + "-" + d == y + "-" + (m + "-" + d);
    DropHyphen(y, m + "-" + d);
    DropHyphen(m, d);
    ReplaceCharAbsent(d, '-', "");
  }

  /** For a date Python can hold, the compact date is the eight digits YYYYMMDD of the ISO date. */
  lemma CompactDateDigits(date: int)
    requires Dates.InDateRange(date)
    ensures var iso := Dates.IsoDate(date);
      CompactDate(date) == iso[..4] + iso[5..7] + iso[8..]
    ensures |CompactDate(date)| == 8
    ensures forall i :: 0 <= i < 8 ==> '0' <= CompactDate(date)[i] <= '9'
  {
    var iso := Dates.IsoDate(date);
    var y, m, d := iso[..4], iso[5..7], iso[8..];
    assert iso == y + "-" + m + "-" + d;
    assert forall i :: 0 <= i < 4 ==> y[i] == iso[i];
    assert forall i :: 0 <= i < 2 ==> m[i] == iso[5 + i] && d[i] == iso[8 + i];
    ReplaceAllSingle(iso, '-', "");
    DropHyphens(y, m, d);
  }

  /** `add_event`: the seven lines of one all-day event. */
  function EventLines(uid: string, title: string, date: int, stamp: string): (r: seq<string>)
    ensures |r| == 7
  {
    var ds := CompactDate(date);
    [
      "BEGIN:VEVENT",
      "UID:" + uid,
      "DTSTAMP:" + stamp,
      "DTSTART;VALUE=DATE:" + ds,
      "DTEND;VALUE=DATE:" + ds,
      "SUMMARY:" + IcsEscape(title),
      "END:VEVENT"
    ]
  }

  /**
   * An event opens and closes its block, starts and ends on the same day,
   * and its summary is the escaped title.
   */
  lemma EventShape(uid: string, title: string, date: int, stamp: string)
    ensures var r := EventLines(uid, title, date, stamp);
      && r[0] == "BEGIN:VEVENT" && r[6] == "END:VEVENT"
      && r[1] == "UID:" + uid
      && r[3][|"DTSTART;VALUE=DATE:"|..] == r[4][|"DTEND;VALUE=DATE:"|..] == CompactDate(date)
      && r[5] == "SUMMARY:" + IcsEscape(title)
      && '\n' !in r[5]
  {
    IcsEscapeRoundTrip(title);
    var r := EventLines(uid, title, date, stamp);
    assert r[5] == "SUMMARY:" + IcsEscape(title);
  }

  function TaskUid(t: Task): string
  {
    "task-" + IntToString(t.id) + "@lawflow"
  }

  function TaskTitle(t: Task): string
  {
    "[Task] " + t.title + " · " + t.assignee
  }

  function MilestoneUid(m: TimelineItem): string
  {
    "milestone-" + IntToString(m.id) + "@lawflow"
  }

  function MilestoneTitle(m: TimelineItem): string
  {
    "[Milestone] " + m.itemLabel
  }

  /** `if t.due_date`: a task has an event when it has a due date. */
  function Dated(t: Task): bool
  {
    t.dueDate.Some?
  }

  /** `m.kind == "Milestone" and m.start_date` (a start date is always set). */
  function IsMilestone(m: TimelineItem): bool
  {
    m.kind == "Milestone"
  }

  function TaskEvent(stamp: string): Task -> seq<string>
  {
    (t: Task) => if t.dueDate.Some? then EventLines(TaskUid(t), TaskTitle(t), t.dueDate.value, stamp) else []
  }

  function MilestoneEvent(stamp: string): TimelineItem -> seq<string>
  {
    (m: TimelineItem) => EventLines(MilestoneUid(m), MilestoneTitle(m), m.startDate, stamp)
  }

  /** The event lines of the tasks, added task by task. */
  function TaskEvents(tasks: seq<Task>, stamp: string): seq<string>
    decreases |tasks|
  {
    if tasks == [] then []
    else
      var t := tasks[|tasks| - 1];
      TaskEvents(tasks[..|tasks| - 1], stamp) + (if Dated(t) then TaskEvent(stamp)(t) else [])
  }

  /** The event lines of the milestones, added item by item. */
  function MilestoneEvents(items: seq<TimelineItem>, stamp: string): seq<string>
    decreases |items|
  {
    if items == [] then []
    else
      var m := items[|items| - 1];
      MilestoneEvents(items[..|items| - 1], stamp) + (if IsMilestone(m) then MilestoneEvent(stamp)(m) else [])
  }

  /**
   * The task events are, in order, one block for each task with a due date
   * and nothing for the others; seven lines each.
   */
  lemma {:induction false} TaskEventsMeaning(tasks: seq<Task>, stamp: string)
    ensures TaskEvents(tasks, stamp) == Grouping.Flatten(Map(Filter(tasks, Dated), TaskEvent(stamp)))
    ensures |TaskEvents(tasks, stamp)| == 7 * |Filter(tasks, Dated)|
    decreases |tasks|
  {
    if tasks != [] {
      var init, t := tasks[..|tasks| - 1], tasks[|tasks| - 1];
      assert tasks == init + [t];
      TaskEventsMeaning(init, stamp);
      FilterAppend(init, [t], Dated);
      FilterSingle(t, Dated);
      MapAppend(Filter(init, Dated), Filter([t], Dated), TaskEvent(stamp));
      Grouping.FlattenAppend(Map(Filter(init, Dated), TaskEvent(stamp)), Map(Filter([t], Dated), TaskEvent(stamp)));
      if Dated(t) {
        assert Grouping.Flatten([TaskEvent(stamp)(t)]) == TaskEvent(stamp)(t);
      }
    } else {
      assert Map(Filter(tasks, Dated), TaskEvent(stamp)) == [];
    }
  }

  /** The milestone events are one block per Milestone item, in order; phases give none. */
  lemma {:induction false} MilestoneEventsMeaning(items: seq<TimelineItem>, stamp: string)
    ensures MilestoneEvents(items, stamp) == Grouping.Flatten(Map(Filter(items, IsMilestone), MilestoneEvent(stamp)))
    ensures |MilestoneEvents(items, stamp)| == 7 * |Filter(items, IsMilestone)|
    decreases |items|
  {
    if items != [] {
      var init, m := items[..|items| - 1], items[|items| - 1];
      assert items == init + [m];
      MilestoneEventsMeaning(init, stamp);
      FilterAppend(init, [m], IsMilestone);
      FilterSingle(m, IsMilestone);
      MapAppend(Filter(init, IsMilestone), Filter([m], IsMilestone), MilestoneEvent(stamp));
      Grouping.FlattenAppend(Map(Filter(init, IsMilestone), MilestoneEvent(stamp)), Map(Filter([m], IsMilestone), MilestoneEvent(stamp)));
      if IsMilestone(m) {
        assert Grouping.Flatten([MilestoneEvent(stamp)(m)]) == MilestoneEvent(stamp)(m);
      }
    } else {
      assert Map(Filter(items, IsMilestone), MilestoneEvent(stamp)) == [];
    }
  }

  lemma TaskEventsPrefix(tasks: seq<Task>, i: nat, stamp: string)
    requires i < |tasks|
    ensures TaskEvents(tasks[..i + 1], stamp) == TaskEvents(tasks[..i], stamp)
      + (if tasks[i].dueDate.Some? then EventLines(TaskUid(tasks[i]), TaskTitle(tasks[i]), tasks[i].dueDate.value, stamp) else [])
  {
    assert tasks[..i + 1][..i] == tasks[..i];
  }

  lemma MilestoneEventsPrefix(items: seq<TimelineItem>, j: nat, stamp: string)
    requires j < |items|
    ensures MilestoneEvents(items[..j + 1], stamp) == MilestoneEvents(items[..j], stamp)
      + (if items[j].kind == "Milestone" then EventLines(MilestoneUid(items[j]), MilestoneTitle(items[j]), items[j].startDate, stamp) else [])
  {
    assert items[..j + 1][..j] == items[..j];
  }

  /** The lines of the calendar: header, the events when the project exists, footer. */
  function CalendarLines(project: Option<Project>, tasks: seq<Task>, items: seq<TimelineItem>, stamp: string): seq<string>
  {
    Header + (if project.Some? then TaskEvents(tasks, stamp) + MilestoneEvents(items, stamp) else []) + [Footer]
  }

  /** `"\r\n".join(lines) + "\r\n"`. */
  function IcsText(lines: seq<string>): string
  {
    Join(lines, Crlf) + Crlf
  }

  /**
   * `project_ics`: the header, then, for an existing project, an event for
   * each of its dated tasks and then for each of its milestones, in query
   * order, then the footer, joined by CRLF with a final CRLF.
   */
  method ProjectIcs(projectId: int, project: Option<Project>, allTasks: seq<Task>, allItems: seq<TimelineItem>, stamp: string)
    returns (ics: string)
    ensures ics == IcsText(CalendarLines(project, Filter(allTasks, TaskOfProject(projectId)),
      Filter(allItems, TimelineOfProject(projectId)), stamp))
  {
    var tasks := Filter(allTasks, TaskOfProject(projectId));
    var items := Filter(allItems, TimelineOfProject(projectId));
    var lines := Header;
    if project.Some? {
      lines := AddTaskEvents(lines, tasks, stamp);
      lines := AddMilestoneEvents(lines, items, stamp);
      assert lines == Header + (TaskEvents(tasks, stamp) + MilestoneEvents(items, stamp));
    } else {
      assert Header + [] == Header;
    }
    lines := lines + [Footer];
    ics := Join(lines, Crlf) + Crlf;
  }

  /** The loop over the tasks: `add_event` for each one with a due date. */
  method AddTaskEvents(start: seq<string>, tasks: seq<Task>, stamp: string) returns (lines: seq<string>)
    ensures lines == start + TaskEvents(tasks, stamp)
  {
    lines := start;
    var i := 0;
    while i < |tasks|
      invariant 0 <= i <= |tasks|
      invariant lines == start + TaskEvents(tasks[..i], stamp)
    {
      lines := AddTaskEvent(start, lines, tasks, i, stamp);
      i := i + 1;
    }
    assert tasks[..|tasks|] == tasks;
  }

  /** One turn of the loop over the tasks: `add_event` when the task has a due date. */
  method AddTaskEvent(start: seq<string>, lines: seq<string>, tasks: seq<Task>, i: nat, stamp: string)
    returns (next: seq<string>)
    requires i < |tasks| && lines == start + TaskEvents(tasks[..i], stamp)
    ensures next == start + TaskEvents(tasks[..i + 1], stamp)
  {
    var t := tasks[i];
    var event := if t.dueDate.Some? then EventLines(TaskUid(t), TaskTitle(t), t.dueDate.value, stamp) else [];
    TaskEventsPrefix(tasks, i, stamp);
    AppendTail(start, TaskEvents(tasks[..i], stamp), event);
    next := lines + event;
  }

  /** The loop over the timeline items: `add_event` for each milestone. */
  method AddMilestoneEvents(start: seq<string>, items: seq<TimelineItem>, stamp: string) returns (lines: seq<string>)
    ensures lines == start + MilestoneEvents(items, stamp)
  {
    lines := start;
    var j := 0;
    while j < |items|
      invariant 0 <= j <= |items|
      invariant lines == start + MilestoneEvents(items[..j], stamp)
    {
      lines := AddMilestoneEvent(start, lines, items, j, stamp);
      j := j + 1;
    }
    assert items[..|items|] == items;
  }

  /** One turn of the loop over the timeline items: `add_event` when the item is a milestone. */
  method AddMilestoneEvent(start: seq<string>, lines: seq<string>, items: seq<TimelineItem>, j: nat, stamp: string)
    returns (next: seq<string>)
    requires j < |items| && lines == start + MilestoneEvents(items[..j], stamp)
    ensures next == start + MilestoneEvents(items[..j + 1], stamp)
  {
    var m := items[j];
    var event := if m.kind == "Milestone" then EventLines(MilestoneUid(m), MilestoneTitle(m), m.startDate, stamp) else [];
    MilestoneEventsPrefix(items, j, stamp);
    AppendTail(start, MilestoneEvents(items[..j], stamp), event);
    next := lines + event;
  }

  /** The text of header, body and footer lines. */
  lemma FrameOf(head: seq<string>, body: seq<string>, foot: string, nl: string)
    ensures Join(head + body + [foot], nl) + nl == Lines(head, nl) + Lines(body, nl) + foot + nl
  {
    JoinThenNewline(head + body + [foot], nl);
    LinesAppend(head + body, [foot], nl);
    LinesAppend(head, body, nl);
    assert Lines([foot], nl) == foot + nl + Lines([], nl);
  }

  /**
   * Every line of the calendar ends in CRLF: the text is the header lines,
   * the event lines, then "END:VCALENDAR", each followed by CRLF.
   */
  lemma CalendarFrame(project: Option<Project>, tasks: seq<Task>, items: seq<TimelineItem>, stamp: string)
    ensures var body := if project.Some? then TaskEvents(tasks, stamp) + MilestoneEvents(items, stamp) else [];
      IcsText(CalendarLines(project, tasks, items, stamp))
        == Lines(Header, Crlf) + Lines(body, Crlf) + Footer + Crlf
    ensures StartsWith(IcsText(CalendarLines(project, tasks, items, stamp)), Lines(Header, Crlf))
    ensures EndsWith(IcsText(CalendarLines(project, tasks, items, stamp)), "END:VCALENDAR\r\n")
  {
    var body := if project.Some? then TaskEvents(tasks, stamp) + MilestoneEvents(items, stamp) else [];
    FrameOf(Header, body, Footer, Crlf);
    var text := IcsText(CalendarLines(project, tasks, items, stamp));
    var head, mid := Lines(Header, Crlf), Lines(body, Crlf);
    assert text == head + mid + Footer + Crlf;
    assert text[..|head|] == head;
    assert text[|text| - 15..] == "END:VCALENDAR\r\n";
  }

  /** A project that does not exist gets a calendar with no event at all. */
  lemma NoProjectNoEvents(tasks: seq<Task>, items: seq<TimelineItem>, stamp: string)
    ensures CalendarLines(None, tasks, items, stamp) == Header + [Footer]
    ensures "BEGIN:VEVENT" !in CalendarLines(None, tasks, items, stamp)
  {
  }

  /**
   * For an existing project there are exactly seven lines per dated task
   * and per milestone between header and footer.
   */
  lemma EventCount(project: Project, tasks: seq<Task>, items: seq<TimelineItem>, stamp: string)
    ensures |CalendarLines(Some(project), tasks, items, stamp)|
      == |Header| + 7 * (|Filter(tasks, Dated)| + |Filter(items, IsMilestone)|) + 1
  {
    TaskEventsMeaning(tasks, stamp);
    MilestoneEventsMeaning(items, stamp);
  }
}
