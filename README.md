# LawFlow, modelled in Dafny

LawFlow is a matter-management application for property conveyancing in
Spain. A FastAPI backend stores projects (matters), their tasks,
conveyancing checklist items, timeline phases and milestones, uploaded
files and an activity log. A React client shows them on a kanban board,
in tables, on a timeline and in a calendar, and prepares a closing pack
for the notary.

This project models the rules both halves apply to those records, and
proves what each rule promises:

- **The closing-pack readiness gate** of the client's wizard
  (`ClosingPackWizard`): open and overdue tasks, the per-stage done/total
  tally, the stages a step still lacks against the 60% threshold, and the
  `ready` verdict.
- **The client's derived view state**:
  - the recent and pinned matters kept in browser storage, the matter
    label, the task search and the KPI counters (`App`);
  - the project label (`Formatting`);
  - the global search (`GlobalSearch`);
  - the two overview tables with their filters, sortable columns and
    counters (`Overview`, `GeneralOverview`, `ProjectSort`);
  - the deadline alerts (`CalendarView`), the schedule page
    (`Cronograma`) and the timeline bars (`Timeline`);
  - the board columns and drop guard (`Board`);
  - the task table (`TasksTable`) and the task card (`TaskCard`);
  - the checklist groups (`Checklist`), the closing-pack page
    (`ClosingPackView`) and the file room (`FilesRoom`);
  - the interface dictionaries (`I18n`), the platform settings
    (`Settings`) and the theme switch (`ThemeToggle`).
- **The backend's pure helpers**:
  - upload validation and safe file names (`FileUtils`);
  - pagination (`Pagination`);
  - the iCalendar feed of a matter (`CalendarIcs`), escaped as section
    3.3.11 of RFC 5545 asks, with CRLF-terminated lines as section 3.1 of
    RFC 5545 asks;
  - the closing-pack documents and manifest (`ClosingPack`);
  - the municipality template lookup (`Templates`).
- **The backend's record stores**:
  - the tables as a class with sequence fields (`Db.Database`), whose
    write routes patch only the fields sent (`Patches`), answer 404 on an
    unknown id and log one activity per successful write;
  - the read queries with their orderings and limits (`DbQueries`);
  - the demo seeding (`Seed`);
  - the database migration that translates checklist rows to Spanish
    (`TranslateMigration`).
- **Facts that only show when two parts are read together**
  (`CrossChecks`). The wizard asks for English stage names, while the
  seed and the migration write Spanish ones. The wizard finishes a task
  with "Hecho", while everything else uses "Done". The file drawer and the
  backend disagree about what is a PDF.

Shared modules:

- `Common`: Option and Result, filtering and mapping.
- `Text`: trimming, lower-casing, search, replacement, number printing and
  ordering of strings.
- `Sorting`: the stable sort.
- `Grouping`: insertion-ordered grouping by key.
- `Dates`: day numbers and their ISO 8601 text.
- `Entities`: the stored records.

Conventions:

- Dates are integer day numbers. "Today" and the current time are
  parameters.
- Browser storage is modelled as the value a key holds.
- A backend route's failure is an `Err(status, detail)` that leaves every
  table unchanged.

## Model

| member | source | states |
|---|---|---|
| App.LoadIds | lawflow_frontend/src/ui/App.tsx:39-49 | A missing, malformed or non-array stored value loads as the empty list |
| App.FiniteValues | lawflow_frontend/src/ui/App.tsx:45 | Keeping the finite numbers of a stored array never lengthens it |
| App.FiniteValuesOfFinite | lawflow_frontend/src/ui/App.tsx:45 | Ids written as numbers are all read back |
| App.LoadKeepsFinite | lawflow_frontend/src/ui/App.tsx:45 | Every finite element of a stored array is among the loaded ids |
| App.SaveThenLoad | lawflow_frontend/src/ui/App.tsx:51-55 | Saving then loading gives the first 12 ids, never more than 12 |
| App.UpsertedShape | lawflow_frontend/src/ui/App.tsx:57-62 | The upserted list starts with the id and never repeats it. The rest is a subsequence of the old list holding exactly its other ids, in their relative order |
| App.IdStore.UpsertRecent | lawflow_frontend/src/ui/App.tsx:57-62 | Returns the upserted recents. Stores them saved, so capped at 12. Leaves the pins alone |
| App.UpsertReturnsUntruncated | lawflow_frontend/src/ui/App.tsx:53-62 | On a full list of 12, the returned list has 13 ids while the stored one has 12 |
| App.ToggledMembership | lawflow_frontend/src/ui/App.tsx:64-69 | After a toggle the id is pinned exactly when it was not pinned before |
| App.IdStore.TogglePin | lawflow_frontend/src/ui/App.tsx:64-69 | Returns the toggled pins, stores them saved, and leaves the recents alone |
| App.ToggleTwiceRestores | lawflow_frontend/src/ui/App.tsx:53-69 | With fewer than 12 pins and an unpinned id, toggling twice through storage restores the pins |
| App.DaysUntil | lawflow_frontend/src/ui/App.tsx:103-110 | Null exactly for a missing date. Otherwise the count of days from today to the date (date = today + count), so 0 exactly for today and negative exactly for a past date |
| App.StripTypePrefix | lawflow_frontend/src/ui/App.tsx:79 | Removes one leading "Purchase – ", otherwise one leading "Sale – ", otherwise nothing |
| App.ShownCore | lawflow_frontend/src/ui/App.tsx:83 | A core that fits is shown whole. A longer one becomes a prefix of the core followed by "…", at most the room long. The kept prefix does not end in white space, and everything the cut drops below room - 1 characters is white space, so it is the first room - 1 characters with trailing white space trimmed |
| App.MatterLabelShape | lawflow_frontend/src/ui/App.tsx:78-85 | The label always starts with "type · location — ". A core within the room max(10, 44 - prefix length) follows unchanged. A longer one is cut to its first room - 1 characters, trailing white space is trimmed from those, and "…" follows |
| App.FilteredTasksMeaning | lawflow_frontend/src/ui/App.tsx:196-202 | A blank query keeps every task. Otherwise the result is the order-keeping subsequence whose lower-cased "title tags assignee" contains the lower-cased trimmed query |
| App.KpiRelations | lawflow_frontend/src/ui/App.tsx:204-216 | open + done is the number of tasks. Due-soon and overdue are disjoint and together at most the open count |
| App.UndatedNotCounted | lawflow_frontend/src/ui/App.tsx:206-213 | An undated task is neither due soon nor overdue |
| App.KpisIgnoreQuery | lawflow_frontend/src/ui/App.tsx:196-216 | The KPIs are the same whatever the search query: they count all tasks, not the filtered ones |
| App.PinnedProjectsMeaning | lawflow_frontend/src/ui/App.tsx:136-140 | The pinned projects are the projects whose id is pinned, in project-list order |
| App.LookupProject | lawflow_frontend/src/ui/App.tsx:143-145 | Finds a project with the id, or reports that none has it |
| App.RecentProjects | lawflow_frontend/src/ui/App.tsx:141-146 | There are never more recent projects than recent ids |
| App.RecentProjectsFollowIds | lawflow_frontend/src/ui/App.tsx:141-146 | When every recent id is known, the recent projects follow the recent-id order one for one |
| App.RecentProjectsKnown | lawflow_frontend/src/ui/App.tsx:141-146 | Every recent project is a known project whose id is recent |
| App.PlatformDefaultBg | lawflow_frontend/src/ui/App.tsx:27-37 | The stored background when it is a string, "#0b1220" otherwise |
| App.PlatformBgMatchesSettings | lawflow_frontend/src/ui/App.tsx:27-37 | The shell reads the same background the settings page loads |
| Board.Columns | lawflow_frontend/src/ui/Board.tsx:7-27 | Four columns. Column j holds the tasks of the j-th status, in input order |
| Board.ColumnIndex | lawflow_frontend/src/ui/Board.tsx:7-36 | The index of a status among the four, or -1 exactly when it is not a status |
| Board.Pushed | lawflow_frontend/src/ui/Board.tsx:24-25 | Pushing every task into its status bucket yields four buckets when it succeeds |
| Board.PushedMeaning | lawflow_frontend/src/ui/Board.tsx:24-25 | When every status is known, the buckets are the columns. An unknown status makes the push fail |
| Board.ByStatus | lawflow_frontend/src/ui/Board.tsx:23-27 | The loop builds exactly the columns, or fails on a task with an unknown status |
| Board.ColumnsPlaceTasks | lawflow_frontend/src/ui/Board.tsx:23-27 | A task is in column j exactly when its status is the j-th status |
| Board.ColumnSizesSum | lawflow_frontend/src/ui/Board.tsx:23-27 | With known statuses, the four column sizes sum to the number of tasks |
| Board.StatusesDistinct | lawflow_frontend/src/ui/Board.tsx:7 | The four statuses are distinct |
| Board.FindTask | lawflow_frontend/src/ui/Board.tsx:38 | Finds a task with the id, or reports that none has it |
| Board.DragMeaning | lawflow_frontend/src/ui/Board.tsx:29-42 | A move is reported exactly when: both ids are truthy, the target is one of the four statuses, the task exists and its status differs. The move names that task and status |
| Board.NumberNotAStatus | lawflow_frontend/src/ui/Board.tsx:35-36 | A numeric drop target (a card) never names a status |
| Board.ZeroIdNeverMoves | lawflow_frontend/src/ui/Board.tsx:32 | A task with id 0 is never moved, because 0 is falsy |
| Board.OwnColumnNoop | lawflow_frontend/src/ui/Board.tsx:39 | Dropping a task on its own column does nothing |
| CalendarView.Upcoming | lawflow_frontend/src/ui/CalendarView.tsx:16-22 | At most 12 alerts |
| CalendarView.ByOffsetIsTotalPreorder | lawflow_frontend/src/ui/CalendarView.tsx:20 | Comparing by day offset is a total preorder |
| CalendarView.SortedAlertsFromPending | lawflow_frontend/src/ui/CalendarView.tsx:17-20 | Every sorted alert is a dated, not-done input task carrying its offset from today |
| CalendarView.UpcomingMeaning | lawflow_frontend/src/ui/CalendarView.tsx:16-22 | At most 12 alerts. Each is a dated, not-done task with its true offset. They are ascending by offset. Tasks with equal offsets keep input order |
| CalendarView.UpcomingAreSoonest | lawflow_frontend/src/ui/CalendarView.tsx:20-21 | No pending task left out of the twelve is due sooner than one kept |
| CalendarView.OverdueIsPrefix | lawflow_frontend/src/ui/CalendarView.tsx:24 | The overdue alerts are exactly the negative-offset upcoming ones, and a prefix of the list |
| CalendarView.BadgeCases | lawflow_frontend/src/ui/CalendarView.tsx:43 | "No overdue" exactly when nothing is overdue. Otherwise the text starts with the count |
| Checklist.Header | lawflow_frontend/src/ui/Checklist.tsx:27 | A group header's done count is at most its total, which is the group's size |
| Checklist.HeaderIsStageTally | lawflow_frontend/src/ui/Checklist.tsx:11-27 | Each group's header is the wizard's done/total tally of that stage |
| Grouping.GroupInOrder | lawflow_frontend/src/ui/Checklist.tsx:11-19 | The Map-filling loop returns the stage groups in order of first occurrence |
| Grouping.FirstOccurrences | lawflow_frontend/src/ui/Checklist.tsx:12-15 | The keys of the Map are distinct |
| Grouping.FirstOccurrencesMembers | lawflow_frontend/src/ui/Checklist.tsx:12-15 | Every item's stage is a key, and every key is some item's stage |
| Grouping.GroupOfKey | lawflow_frontend/src/ui/Checklist.tsx:14-17 | The group of a listed key is a non-empty, order-keeping subsequence holding exactly the items with that key |
| Grouping.Groups | lawflow_frontend/src/ui/Checklist.tsx:14-17 | The group of a key holds the items with that key, in input order |
| Grouping.PushAllMeaning | lawflow_frontend/src/ui/Checklist.tsx:13-17 | Pushing item by item yields keys in first-occurrence order, and each key's list is its group |
| Grouping.EntriesArePushedGroups | lawflow_frontend/src/ui/Checklist.tsx:18 | `Array.from(m.entries())` is the list of (stage, group) pairs |
| Grouping.GroupedMeaning | lawflow_frontend/src/ui/Checklist.tsx:11-19 | Each group's stage is distinct from the others'. The group is non-empty, keeps input order and holds exactly the items of its stage |
| Grouping.GroupedCovers | lawflow_frontend/src/ui/Checklist.tsx:14-17 | Every item is in its stage's group, and the groups together are a permutation of the items |
| Grouping.GroupsPartition | lawflow_frontend/src/ui/Checklist.tsx:14-17 | The concatenated groups are a permutation of the items |
| Grouping.GroupsCover | lawflow_frontend/src/ui/Checklist.tsx:14-17 | The groups together are as long as the items and contain each of them |
| Cronograma.Columns | lawflow_frontend/src/ui/Cronograma.tsx:30-78 | The schedule grid has at least one column per day of the span |
| Cronograma.MoreColumnsThanCompact | lawflow_frontend/src/ui/Cronograma.tsx:78 | The schedule never has fewer columns than the compact timeline, and the same number up to 30 days |
| Cronograma.BadgeOfMissingKeys | lawflow_frontend/src/ui/Cronograma.tsx:91-92 | In a dictionary without the two keys, the badge shows the bare key, with no count |
| Cronograma.BadgeShowsKeys | lawflow_frontend/src/ui/Cronograma.tsx:91-92 | In both languages the badge reads "overdueCount" or "noOverdue", because neither dictionary defines those keys |
| Timeline.Endpoints | lawflow_frontend/src/ui/Timeline.tsx:12 | Two dates per item |
| Timeline.LeastIsMinimum | lawflow_frontend/src/ui/Timeline.tsx:13 | The least date is one of the dates and no date is earlier |
| Timeline.GreatestIsMaximum | lawflow_frontend/src/ui/Timeline.tsx:14 | The greatest date is one of the dates and no date is later |
| Timeline.EndpointsMembers | lawflow_frontend/src/ui/Timeline.tsx:12 | Every item's start and end date are among the endpoints |
| Timeline.SpanCoversItems | lawflow_frontend/src/ui/Timeline.tsx:10-16 | The span starts at the earliest and ends at the latest of all start and end dates, so it covers every item |
| Timeline.TotalDays | lawflow_frontend/src/ui/Timeline.tsx:18 | There is at least one day |
| Timeline.TotalDaysIsSpanLength | lawflow_frontend/src/ui/Timeline.tsx:18 | With items, the day count is end - start + 1 |
| Timeline.NoItemsNoRows | lawflow_frontend/src/ui/Timeline.tsx:11 | No items give no bars and a one-day span |
| Timeline.BarBounds | lawflow_frontend/src/ui/Timeline.tsx:36-39 | The start offset is at least 0 and the end offset at most the day count. cssStart is start + 1 and cssEnd is at least cssStart + 1 |
| Timeline.BarsOfItemsUnclamped | lawflow_frontend/src/ui/Timeline.tsx:33-39 | For the items' own span no clamp applies: a bar starts at its day offset + 1, and a well-formed item ends at its end offset + 2 |
| Timeline.Bars | lawflow_frontend/src/ui/Timeline.tsx:33 | One bar per item |
| Timeline.Columns | lawflow_frontend/src/ui/Timeline.tsx:41 | The grid has min(30, total days) columns |
| ClosingPackWizard.UndatedNeverOverdue | lawflow_frontend/src/ui/ClosingPackWizard.tsx:18-19 | A task without a due date is never overdue |
| ClosingPackWizard.DueTodayNotOverdue | lawflow_frontend/src/ui/ClosingPackWizard.tsx:18-24 | A task due today is not overdue, while one due yesterday is |
| ClosingPackWizard.OverdueAreOpen | lawflow_frontend/src/ui/ClosingPackWizard.tsx:30-31 | The overdue tasks are a subsequence of the open ones. Each is not "Hecho" and is due before today |
| ClosingPackWizard.ByStage | lawflow_frontend/src/ui/ClosingPackWizard.tsx:33-42 | The loop builds exactly the per-stage done/total map of the checklist |
| ClosingPackWizard.CountedStagesIsStageMap | lawflow_frontend/src/ui/ClosingPackWizard.tsx:35-40 | Folding the checklist item by item gives, for every stage present, its count of items and of done items |
| ClosingPackWizard.StageMapSnoc | lawflow_frontend/src/ui/ClosingPackWizard.tsx:36-39 | One more item bumps its own stage's entry, starting from 0/0, and leaves the other stages alone |
| ClosingPackWizard.TallySnoc | lawflow_frontend/src/ui/ClosingPackWizard.tsx:37-38 | One more item adds 1 to its stage's total, and 1 to done when it is done |
| ClosingPackWizard.TallyOfAbsent | lawflow_frontend/src/ui/ClosingPackWizard.tsx:36 | A stage no item carries has the tally 0/0 |
| ClosingPackWizard.TallyBounds | lawflow_frontend/src/ui/ClosingPackWizard.tsx:33-42 | Every stage in the map has total at least 1 and done at most total |
| ClosingPackWizard.TotalsSumToLength | lawflow_frontend/src/ui/ClosingPackWizard.tsx:33-42 | The totals of the stages sum to the checklist length |
| ClosingPackWizard.SumTotalsIsFlattenLength | lawflow_frontend/src/ui/ClosingPackWizard.tsx:33-42 | The totals of given stages add up to the size of their groups together |
| ClosingPackWizard.RegistryAndUtilitiesAgree | lawflow_frontend/src/ui/ClosingPackWizard.tsx:45-50 | The Registry and Utilities steps need the same stages |
| ClosingPackWizard.Threshold | lawflow_frontend/src/ui/ClosingPackWizard.tsx:55 | The threshold is max(1, ⌈0.6·total⌉): at least 1, at least 3/5 of the total, and the least such number |
| ClosingPackWizard.ShortStages | lawflow_frontend/src/ui/ClosingPackWizard.tsx:52-57 | A needed stage is reported exactly when it is in the map with done below its threshold. An absent stage is skipped |
| ClosingPackWizard.ShortLines | lawflow_frontend/src/ui/ClosingPackWizard.tsx:51-57 | The loop pushes "stage: done/total" for each short needed stage, in step order |
| ClosingPackWizard.ShortLinesSnoc | lawflow_frontend/src/ui/ClosingPackWizard.tsx:52-57 | One more needed stage adds its line exactly when it is present and short |
| ClosingPackWizard.Missing | lawflow_frontend/src/ui/ClosingPackWizard.tsx:44-60 | The method computes the missing list: the short-stage lines, the overdue line put first, and the cut to 8 |
| ClosingPackWizard.MissingBounded | lawflow_frontend/src/ui/ClosingPackWizard.tsx:51-59 | The list is the optional overdue line followed by the short-stage lines, and never longer than 4, so the cut to 8 never bites |
| ClosingPackWizard.OverdueLineFirst | lawflow_frontend/src/ui/ClosingPackWizard.tsx:58 | With overdue tasks "n overdue task(s)" comes first. Without them the list is just the short stages |
| ClosingPackWizard.TwoOverdueBlock | lawflow_frontend/src/ui/ClosingPackWizard.tsx:62 | Two or more overdue tasks make every step not ready |
| ClosingPackWizard.SingleStageStepsReady | lawflow_frontend/src/ui/ClosingPackWizard.tsx:45-62 | With fewer than two overdue tasks, the one-stage steps are always ready |
| ClosingPackWizard.StepChangesReady | lawflow_frontend/src/ui/ClosingPackWizard.tsx:44-62 | For one checklist the Notary step is not ready while the Taxes step is: switching step changes the verdict |
| ClosingPackView.ReadinessCard | lawflow_frontend/src/ui/ClosingPackView.tsx:11-35 | The card's done count is at most the checklist length, and the open count at most the task count |
| ClosingPackView.ReadyMeaning | lawflow_frontend/src/ui/ClosingPackView.tsx:11-31 | "Ready" is shown exactly when every task is "Done". Open and finished tasks add up to all tasks |
| ClosingPackView.ChecklistDoesNotGateReady | lawflow_frontend/src/ui/ClosingPackView.tsx:31 | The pill is the same whatever the checklist |
| ClosingPackView.NoProjectDash | lawflow_frontend/src/ui/ClosingPackView.tsx:33 | Without a project the matter reads "—" |
| ClosingPack.MdRoundTrip | lawflow_backend/app/routers/closing_pack.py:12-13 | A one-line title and any body are recovered from the document md builds |
| ClosingPack.SummaryMeaning | lawflow_backend/app/routers/closing_pack.py:26-32 | The summary has six fields. The client line shows the name or "—". A missing close date prints "None". The document is md("Project summary", the fields) |
| ClosingPack.ItemLine | lawflow_backend/app/routers/closing_pack.py:52 | An item line starts "- [" and has "x" in the box exactly when the item is done, a space otherwise |
| ClosingPack.StageHeader | lawflow_backend/app/routers/closing_pack.py:50 | A stage header starts with "## " |
| ClosingPack.BlockShape | lawflow_backend/app/routers/closing_pack.py:50-53 | A stage block is its header, one line per item in order, then a blank line |
| ClosingPack.AppendBlock | lawflow_backend/app/routers/closing_pack.py:50-53 | The loop appends exactly one stage block |
| ClosingPack.ExportChecklist | lawflow_backend/app/routers/closing_pack.py:44-54 | The loop over the stage dict builds exactly the checklist document |
| ClosingPack.BlocksParts | lawflow_backend/app/routers/closing_pack.py:49-53 | Across blocks: the headers are the group headers in order, there is one blank line per group, and the item lines are the members' lines in group order |
| ClosingPack.BlocksSeparated | lawflow_backend/app/routers/closing_pack.py:49-53 | Every header after the first follows a blank line. The export starts with a header and ends with a blank line |
| ClosingPack.ChecklistExportMeaning | lawflow_backend/app/routers/closing_pack.py:44-54 | One "## stage" header per stage, in first-appearance order, and one blank line after each group. An empty checklist gives the heading alone |
| ClosingPack.ChecklistItemsListed | lawflow_backend/app/routers/closing_pack.py:44-54 | There are as many item lines as items, and every item's line is present |
| ClosingPack.ItemLinesInGroupOrder | lawflow_backend/app/routers/closing_pack.py:45-53 | The item lines are the items regrouped by stage, each group in input order |
| ClosingPack.ExportOpenTasks | lawflow_backend/app/routers/closing_pack.py:56-61 | The loop builds exactly the open-tasks document |
| ClosingPack.OpenTasksMeaning | lawflow_backend/app/routers/closing_pack.py:57-60 | The table has its two header lines, then one row per task not "Done", in query order, and nothing else |
| ClosingPack.OpenTasksDocLines | lawflow_backend/app/routers/closing_pack.py:61 | The document is the heading, the table lines joined by newlines, and a final newline |
| ClosingPack.EscapeQuotesChars | lawflow_backend/app/routers/closing_pack.py:67 | The title escaping replaces every double quote with backslash-quote |
| ClosingPack.EscapeQuotesRoundTrip | lawflow_backend/app/routers/closing_pack.py:67 | Unescaping the manifest title recovers the title |
| ClosingPack.EscapeQuotesMeaning | lawflow_backend/app/routers/closing_pack.py:67 | Every quote in the escaped title follows a backslash. Existing backslashes are left as they are, and only the added ones are new |
| ClosingPack.IncludesDistinct | lawflow_backend/app/routers/closing_pack.py:68 | The manifest lists four distinct files, none of them the manifest |
| ClosingPack.ArchiveNameInjective | lawflow_backend/app/routers/closing_pack.py:72 | Different projects get differently named archives |
| ClosingPack.FindProject | lawflow_backend/app/routers/closing_pack.py:17 | Finds the project with the id, or reports that none has it |
| ClosingPack.EntriesLayout | lawflow_backend/app/routers/closing_pack.py:25-69 | The archive holds five entries: the four listed files in order, then the manifest, each with its document |
| ClosingPack.Generate | lawflow_backend/app/routers/closing_pack.py:15-73 | The route's documents are built by the loops above, and the response is the pack described next |
| ClosingPack.PackMeaning | lawflow_backend/app/routers/closing_pack.py:15-73 | An error body "Project not found" exactly for an unknown project. Otherwise an archive named after the id holds the project's summary, the checklist and open-task documents of its own rows, and the manifest |
| CalendarIcs.EscapeChar | lawflow_backend/app/routers/calendar.py:10 | An escaped character is never empty and never a raw newline |
| CalendarIcs.ChainIsEscapeEach | lawflow_backend/app/routers/calendar.py:10 | The four chained replacements, backslash first, escape each character on its own |
| CalendarIcs.IcsEscapeEach | lawflow_backend/app/routers/calendar.py:10 | ics_escape is the character-wise escape |
| CalendarIcs.UnescapeEach | lawflow_backend/app/routers/calendar.py:10 | Unescaping the four sequences undoes the character-wise escape |
| CalendarIcs.UnescapeChar | lawflow_backend/app/routers/calendar.py:10 | An escaped character followed by anything unescapes to that character first |
| CalendarIcs.IcsEscapeRoundTrip | lawflow_backend/app/routers/calendar.py:9-10 | Unescaping recovers the text, and escaped text has no raw newline |
| CalendarIcs.CompactDateDigits | lawflow_backend/app/routers/calendar.py:29 | The date without hyphens is the eight digits of year, month and day |
| CalendarIcs.EventLines | lawflow_backend/app/routers/calendar.py:27-38 | An event is seven lines |
| CalendarIcs.EventShape | lawflow_backend/app/routers/calendar.py:27-38 | BEGIN and END lines, the UID, DTSTART equal to DTEND as the compact date, and the escaped SUMMARY with no raw newline |
| CalendarIcs.TaskEventsMeaning | lawflow_backend/app/routers/calendar.py:41-43 | One seven-line event per task with a due date, in task order |
| CalendarIcs.MilestoneEventsMeaning | lawflow_backend/app/routers/calendar.py:44-46 | One seven-line event per Milestone item, in item order. Phases give none |
| CalendarIcs.TaskEventsPrefix | lawflow_backend/app/routers/calendar.py:41-43 | One more task adds its event exactly when it has a due date |
| CalendarIcs.MilestoneEventsPrefix | lawflow_backend/app/routers/calendar.py:44-46 | One more item adds its event exactly when it is a Milestone |
| CalendarIcs.AddTaskEvents | lawflow_backend/app/routers/calendar.py:41-43 | The task loop appends exactly the task events |
| CalendarIcs.AddTaskEvent | lawflow_backend/app/routers/calendar.py:41-43 | One turn of the task loop extends the events by that task's |
| CalendarIcs.AddMilestoneEvents | lawflow_backend/app/routers/calendar.py:44-46 | The milestone loop appends exactly the milestone events |
| CalendarIcs.AddMilestoneEvent | lawflow_backend/app/routers/calendar.py:44-46 | One turn of the milestone loop extends the events by that item's |
| CalendarIcs.ProjectIcs | lawflow_backend/app/routers/calendar.py:12-50 | The route returns the text of the calendar lines built from the project's own tasks and timeline items |
| CalendarIcs.CalendarFrame | lawflow_backend/app/routers/calendar.py:19-49 | The text is the five header lines, the events, then END:VCALENDAR, every line ending in CRLF |
| CalendarIcs.NoProjectNoEvents | lawflow_backend/app/routers/calendar.py:40 | An unknown project yields the header and footer only, with no VEVENT |
| CalendarIcs.EventCount | lawflow_backend/app/routers/calendar.py:40-48 | A known project's calendar has 5 + 7·(dated tasks + milestones) + 1 lines |
| Dates.DaysUntil | lawflow_frontend/src/ui/CalendarView.tsx:6-12 | The whole days from today to a date: negative exactly before today, 0 exactly on today |
| Dates.IsoDate | lawflow_backend/app/routers/calendar.py:43 | Within years 1 to 9999 a date prints as ten characters "YYYY-MM-DD". Read back as decimal numbers, the year, month and day form an existing date whose day number is the input |
| Dates.IsoDateInjective | lawflow_backend/app/routers/calendar.py:43 | Different day numbers within years 1 to 9999 print as different texts |
| Dates.CivilFromDays | lawflow_backend/app/routers/calendar.py:43 | The calendar date of a day number exists (a month in 1..12, a day within that month's length), and its day number is the input |
| Dates.CivilUnique | lawflow_backend/app/routers/calendar.py:43 | Two existing dates with the same day number are the same date |
| Dates.CivilRoundTrip | lawflow_backend/app/routers/calendar.py:43 | Every existing date is the calendar date of its own day number, so dates and day numbers correspond one to one |
| Dates.YearAndDay | lawflow_backend/app/routers/calendar.py:43 | A day number splits into a year and a day within that year's length, and the days before that year plus the day's index are the input |
| Dates.YearUnique | lawflow_backend/app/routers/calendar.py:43 | That split is unique: one day number never names two (year, day of year) pairs |
| Dates.MonthAndDay | lawflow_backend/app/routers/calendar.py:43 | A day of the year splits into a month and a day within that month's length, and the days of the earlier months plus the day give the day of the year |
| Dates.MonthUnique | lawflow_backend/app/routers/calendar.py:43 | That split is unique: one day of the year never names two (month, day) pairs |
| Dates.YearLengthIsMonthSum | lawflow_backend/app/routers/calendar.py:43 | The month lengths add up to the year's length, leap years included |
| Dates.Digits2 | lawflow_backend/app/routers/calendar.py:43 | A number below 100 prints as two digits whose decimal value is the number |
| Dates.Digits4 | lawflow_backend/app/routers/calendar.py:43 | A number below 10000 prints as four digits whose decimal value is the number |
| Db.Database.constructor | lawflow_backend/app/models.py:17 | An empty database has every table empty, nothing on disk, and unique keys |
| Db.NewTaskMeaning | lawflow_backend/app/routers/tasks.py:29-32 | A created task takes the next id and the body's fields. A status, assignee or priority not sent defaults to Backlog, "Ana López" or Medium |
| Db.Database.CreateTask | lawflow_backend/app/routers/tasks.py:29-36 | Appends the new task with a key above every existing one. Logs "Created task" by the task's assignee with the title. Changes nothing else |
| Db.NewProjectMeaning | lawflow_backend/app/routers/projects.py:20-23 | A created project takes the next id and the body's fields. A status, risk or colour not sent defaults to Intake, Normal or "#0b1220". Its client is the one with the body's client id, if any |
| Db.Database.CreateProject | lawflow_backend/app/routers/projects.py:20-27 | Appends the new project with a key above every existing one. Logs "Created project" under project id 0, not the new id. Changes nothing else |
| Db.GetProjectMeaning | lawflow_backend/app/routers/projects.py:13-18 | 404 "Project not found" exactly for an unknown id. Otherwise the stored project with exactly its own tasks, checklist items, timeline items and activities |
| Db.Database.Log | lawflow_backend/app/routers/tasks.py:24 | Appends one activity row with the next key and changes no other table |
| Db.Database.UpdateTask | lawflow_backend/app/routers/tasks.py:16-27 | 404 on an unknown id with nothing changed. A null for a NOT NULL column fails at commit with nothing changed. Otherwise only that task is replaced by the patched one, and one "Updated task" activity carrying the new title is logged |
| Db.Database.UpdateProject | lawflow_backend/app/routers/projects.py:29-40 | 404 on an unknown id with nothing changed. A refused null fails with nothing changed. Otherwise only that project is patched, and "Updated project" is logged with the sent field names |
| Db.Database.ToggleItem | lawflow_backend/app/routers/checklists.py:13-22 | 404 on an unknown id with nothing changed. Otherwise is_done is set to the sent value, not flipped, so repeating it leaves the table as it was. Logs "Checklist updated" with the item's label |
| Db.UploadNameMeaning | lawflow_backend/app/routers/files.py:28 | The upload name is the filename with every "/" and "\\" made "_", and nothing else changed |
| Db.UploadNameKeepsDots | lawflow_backend/app/routers/files.py:28 | Unlike the safe-filename helper, ".." survives: "../a" is stored as ".._a" |
| Db.ReplaceCharByChar | lawflow_backend/app/routers/files.py:28 | Replacing one character by another keeps the length and changes only those positions |
| Db.UploadPathMeaning | lawflow_backend/app/routers/files.py:29 | The stored path is "uploads/" then a name without "/". Different (project, name) pairs get different paths |
| Db.SplitAtMarker | lawflow_backend/app/routers/files.py:29 | A path "<id>__<name>" determines its id and its name |
| Db.FormOrDefault | lawflow_backend/app/routers/files.py:22 | A form field that is missing or sent empty takes the default; any other value is kept; a non-empty default gives a non-empty result |
| Db.Database.UploadFile | lawflow_backend/app/routers/files.py:19-44 | 400 "Missing filename" for an absent or empty name with nothing changed. Otherwise the record with the sanitised name, path and content type is appended and the file lands on disk. One "Uploaded file" activity is logged, by the uploader named in the form ("Ana López" when the field is missing or empty). The new file can be downloaded |
| Db.DownloadMeaning | lawflow_backend/app/routers/files.py:46-54 | 404 "File not found" exactly for an unknown id. Any success is the stored file present on disk, with its name and a non-empty media type. Every failure is a 404 |
| DbQueries.Locate | lawflow_backend/app/routers/tasks.py:18 | `db.get`: the position of a row with the key, or -1 exactly when none has it |
| DbQueries.LocateUnique | lawflow_backend/app/routers/tasks.py:18 | With unique keys, the position found is the one row with that key |
| DbQueries.Get | lawflow_backend/app/routers/tasks.py:18 | A row with the key, or none exactly when no row has it |
| DbQueries.MaxId | lawflow_backend/app/models.py:17 | The largest key, at least 0 |
| DbQueries.InsertKeepsUnique | lawflow_backend/app/models.py:17 | A row with the next key keeps keys unique and is above every existing one |
| DbQueries.NextIdAfterInsert | lawflow_backend/app/models.py:17 | After inserting it, the next key is one more |
| DbQueries.ReplaceKeepsUnique | lawflow_backend/app/routers/tasks.py:21-23 | Updating a row in place keeps keys unique |
| DbQueries.KeyOrders | lawflow_backend/app/routers/timeline.py:11 | Ascending and descending by an integer key are total preorders |
| DbQueries.DueFirstIsTotalPreorder | lawflow_backend/app/routers/tasks.py:14 | Undated-last, then by due date, is a total preorder |
| DbQueries.ListTasksMeaning | lawflow_backend/app/routers/tasks.py:9-14 | All tasks, or the project's when an id is given, as a permutation. Dated tasks come first in ascending date order, then the undated ones |
| DbQueries.ListTasksOfProject | lawflow_backend/app/routers/tasks.py:12-13 | With a project id, exactly that project's tasks are listed |
| DbQueries.ListProjectsMeaning | lawflow_backend/app/routers/projects.py:9-11 | A permutation of the projects, strictly descending by id |
| DbQueries.ListItemsMeaning | lawflow_backend/app/routers/checklists.py:9-11 | A permutation of exactly the project's items, strictly ascending by id |
| DbQueries.AscStrict | lawflow_backend/app/routers/checklists.py:11 | Ascending by unique keys is strictly ascending |
| DbQueries.SortKeepsUnique | lawflow_backend/app/routers/checklists.py:11 | Sorting keeps keys unique |
| DbQueries.FilterKeepsUnique | lawflow_backend/app/routers/checklists.py:11 | Filtering keeps keys unique |
| DbQueries.AscSorted | lawflow_backend/app/routers/timeline.py:11 | A table sorted ascending by a key is in non-decreasing key order |
| DbQueries.DescSorted | lawflow_backend/app/routers/files.py:17 | A table sorted descending by a key is in non-increasing key order |
| DbQueries.ListFilesMeaning | lawflow_backend/app/routers/files.py:15-17 | A permutation of exactly the project's files, newest upload first |
| DbQueries.ListActivityMeaning | lawflow_backend/app/routers/activity.py:9-11 | At most 100 rows, all of the project. Newest first. All of them when there are no more than 100 |
| DbQueries.TopRows | lawflow_backend/app/routers/activity.py:11 | The first n rows of a descending sort are at least as large as every row left out, and together with them make up the table |
| DbQueries.ListActivityMostRecent | lawflow_backend/app/routers/activity.py:11 | The rows returned are the 100 most recent of the project: none left out is newer, and kept plus left out are all of its rows |
| DbQueries.ListTimelineMeaning | lawflow_backend/app/routers/timeline.py:9-11 | A permutation of all the project's items, with no limit, ascending by start date. A project without items gives the empty list |
| FileUtils.Lookup | lawflow_backend/app/file_utils.py:60-69 | The extensions listed for a content type, or none exactly when the type is not in the table |
| FileUtils.LastIndexOf | lawflow_backend/app/file_utils.py:68 | The last position of a character, or -1 when it does not occur |
| FileUtils.StripTrailing | lawflow_backend/app/file_utils.py:68 | A prefix of the path that ends neither in "/" nor in a "." component |
| FileUtils.AfterLastSlash | lawflow_backend/app/file_utils.py:68 | The final path component has no "/", and a path without "/" is its own component |
| FileUtils.AfterLastSlashIsSuffix | lawflow_backend/app/file_utils.py:68 | The final component is a suffix of the path, preceded by "/" unless it is the whole path |
| FileUtils.BaseName | lawflow_backend/app/file_utils.py:68 | The final component, with trailing "/" and "." components ignored: it has no "/" and is never ".", and a plain name is its own base name |
| FileUtils.BaseNameSkipsSlash | lawflow_backend/app/file_utils.py:68 | A trailing "/" does not change the base name |
| FileUtils.BaseNameSkipsDot | lawflow_backend/app/file_utils.py:68 | A trailing "/." component does not change the base name |
| FileUtils.DotComponentIgnored | lawflow_backend/app/file_utils.py:67-75 | A name with a trailing "/." ("deed.pdf/.") gets the same verdict as the name without it ("deed.pdf") |
| FileUtils.SuffixShape | lawflow_backend/app/file_utils.py:68 | `Path.suffix` is empty, or a dot followed by at least one character and no other dot |
| FileUtils.ValidateMeaning | lawflow_backend/app/file_utils.py:34-75 | Accepts exactly a size in 1..50 MiB with an allowed type, whose extension fits unless the name is missing or empty. Too large gives 413 and an empty file 400, whatever the type. An allowed size with a missing or unknown type gives 400. Every refusal is 400 or 413 |
| FileUtils.ExactLimitAccepted | lawflow_backend/app/file_utils.py:49 | A file of exactly 50 MiB is accepted, with the extension compared lower-cased |
| FileUtils.NameWithoutSuffixRefused | lawflow_backend/app/file_utils.py:67-75 | A present name without an extension is refused with 400 |
| FileUtils.SplitExt | lawflow_backend/app/file_utils.py:95 | The name part and the extension put together are the name, and the extension is empty or starts with a dot |
| FileUtils.SliceTo | lawflow_backend/app/file_utils.py:96 | Python's `s[:k]`: a prefix of `s`, of length `k` when `k` is in range |
| FileUtils.ReplaceAllChars | lawflow_backend/app/file_utils.py:91 | A replacement introduces no character that is neither in the text nor in the replacement |
| FileUtils.ReplaceDotsNoDoubleDot | lawflow_backend/app/file_utils.py:91 | After replacing ".." by "_" no ".." is left |
| FileUtils.ReplaceDotsHead | lawflow_backend/app/file_utils.py:91 | Replacing ".." keeps a non-empty text non-empty, and its first character is "_" when the text starts with ".." and the text's own first character otherwise |
| FileUtils.ReplaceAllNonEmpty | lawflow_backend/app/file_utils.py:91 | A replacement by a non-empty text keeps a non-empty text non-empty |
| FileUtils.SanitizedEmpty | lawflow_backend/app/file_utils.py:91 | Sanitising the empty name gives the empty name |
| FileUtils.SanitizedMeaning | lawflow_backend/app/file_utils.py:91 | The sanitised name has no "/", no "\\" and no "..". Its characters come from the name or are "_". A non-empty name stays non-empty |
| FileUtils.SafeFilenameMeaning | lawflow_backend/app/file_utils.py:77-98 | 400 "Missing filename" exactly for an empty name. Otherwise the result is non-empty, has no "/" or "\\", and uses only the name's characters and "_". Without truncation it is the sanitised name, with no ".." |
| FileUtils.CutKeepsExtension | lawflow_backend/app/file_utils.py:94-96 | A name over 255 with an extension under 255 is cut to 255 characters that end with the extension and start with a prefix of the name |
| FileUtils.LongNameKeepsExtension | lawflow_backend/app/file_utils.py:87-98 | A name whose sanitised form is over 255 with an extension under 255 gives a 255-character safe name that keeps the extension |
| FileUtils.FileKindsDisjoint | lawflow_backend/app/file_utils.py:100-118 | Image, PDF and Office types are pairwise disjoint. PDF and Office types are allowed uploads |
| FilesRoom.FilteredMeaning | lawflow_frontend/src/ui/FilesRoom.tsx:25-29 | A blank query keeps all files. Otherwise the result is the order-keeping subsequence whose lower-cased "filename mime uploader" contains the lower-cased trimmed query |
| FilesRoom.SameFilesAsGlobalSearch | lawflow_frontend/src/ui/FilesRoom.tsx:28 | For a non-blank query the file room lists exactly the files the global search reports |
| FilesRoom.PreviewCases | lawflow_frontend/src/ui/FilesRoom.tsx:104-123 | The PDF frame exactly when the type contains "pdf". The image tag exactly when it does not but starts with "image/". No type gives no preview |
| FilesRoom.PdfCheckedFirst | lawflow_frontend/src/ui/FilesRoom.tsx:104-111 | "image/x-pdf" gets the PDF frame, because "pdf" is checked first |
| Formatting.ClientName | lawflow_frontend/src/lib/formatting.ts:17 | The client's name verbatim, with no reordering, or "Unknown Client" |
| Formatting.TypeAndSeparator | lawflow_frontend/src/lib/formatting.ts:19-32 | Purchase becomes "Compra en", Sale becomes "Venta en", any other type is kept with "@" |
| Formatting.SeparatorIsEnForKnownTypes | lawflow_frontend/src/lib/formatting.ts:19-32 | The separator is "en" exactly for Purchase and Sale |
| Formatting.FormatProjectLabel | lawflow_frontend/src/lib/formatting.ts:7-8 | No project gives "—" |
| Formatting.LabelEnding | lawflow_frontend/src/lib/formatting.ts:19-37 | A purchase label ends " - Compra en <location>", a sale label " - Venta en <location>", and any other " - <type> @ <location>" |
| Formatting.LabelsDistinguishIds | lawflow_frontend/src/lib/formatting.ts:16 | Two matters with the same client, type and location but different ids get different labels |
| Formatting.LabelShape | lawflow_frontend/src/lib/formatting.ts:16-37 | The label starts with the shifted number and the client, and ends with a space and the location |
| Formatting.LabelExample | lawflow_frontend/src/lib/formatting.ts:11-37 | Project 1 of Laura Pérez, a purchase in Ojén, is labelled "732 - Laura Pérez - Compra en Ojén" |
| Formatting.MissingClientNamed | lawflow_frontend/src/lib/formatting.ts:17 | A project without a client is labelled with "Unknown Client" |
| GlobalSearch.Hits | lawflow_frontend/src/ui/GlobalSearchModal.tsx:30-46 | No hits for a blank query. Otherwise exactly the first min(24, number of matches) matches, in order |
| GlobalSearch.ComputeHits | lawflow_frontend/src/ui/GlobalSearchModal.tsx:29-47 | The method computes exactly the hits |
| GlobalSearch.CollectHits | lawflow_frontend/src/ui/GlobalSearchModal.tsx:32-45 | The three loops collect the task part, then the file part, then the checklist part |
| GlobalSearch.PushTaskHits | lawflow_frontend/src/ui/GlobalSearchModal.tsx:34-37 | The task loop appends the matching tasks in input order |
| GlobalSearch.PushFileHits | lawflow_frontend/src/ui/GlobalSearchModal.tsx:38-41 | The file loop appends the matching files in input order |
| GlobalSearch.PushChecklistHits | lawflow_frontend/src/ui/GlobalSearchModal.tsx:42-45 | The checklist loop appends the matching items in input order |
| GlobalSearch.BlankQueryNoHits | lawflow_frontend/src/ui/GlobalSearchModal.tsx:30-31 | A query blank after trimming gives no hits |
| GlobalSearch.AllFoundWhenFew | lawflow_frontend/src/ui/GlobalSearchModal.tsx:30-46 | With at most 24 matches, a non-blank query shows all of them, in order |
| GlobalSearch.MatchesFound | lawflow_frontend/src/ui/GlobalSearchModal.tsx:30-46 | With at most 24 matches, every task, file and checklist item whose lower-cased haystack contains the lower-cased trimmed query is among the hits |
| GlobalSearch.PartKinds | lawflow_frontend/src/ui/GlobalSearchModal.tsx:34-45 | Each loop produces hits of its own kind only |
| GlobalSearch.AllKindsInOrder | lawflow_frontend/src/ui/GlobalSearchModal.tsx:34-45 | Among all matches, task hits precede file hits, which precede checklist hits |
| GlobalSearch.KindsInOrder | lawflow_frontend/src/ui/GlobalSearchModal.tsx:34-46 | After the cut, task hits still precede file hits, which precede checklist hits |
| GlobalSearch.AllHitsMatch | lawflow_frontend/src/ui/GlobalSearchModal.tsx:35-43 | Every match comes from its input and its haystack contains the query |
| GlobalSearch.HitsMatch | lawflow_frontend/src/ui/GlobalSearchModal.tsx:30-46 | Every hit comes from its input, and its lower-cased haystack contains the lower-cased trimmed query. The haystacks are title+tags+assignee, filename+mime+uploader and stage+label |
| GlobalSearch.HitTargets | lawflow_frontend/src/ui/GlobalSearchModal.tsx:36-44 | Task hits show the title and go to Table. File hits show the filename and go to Files. Checklist hits show the label and go to Board |
| GlobalSearch.NoResultsAndTipsExclusive | lawflow_frontend/src/ui/GlobalSearchModal.tsx:69-70 | "No results" and the tips never show together. With no hits one of them shows |
| GlobalSearch.SearchDialog.SetOpen | lawflow_frontend/src/ui/GlobalSearchModal.tsx:23-27 | Opening a closed dialog empties the query. Any other change keeps it |
| GlobalSearch.SearchDialog.Type | lawflow_frontend/src/ui/GlobalSearchModal.tsx:59 | Typing sets the query and keeps the dialog's state |
| GlobalSearch.FreshDialogShowsTips | lawflow_frontend/src/ui/GlobalSearchModal.tsx:25-31 | A freshly opened dialog shows the tips and no hits |
| GeneralOverview.VisibleMeaning | lawflow_frontend/src/ui/GeneralOverviewView.tsx:52-87 | The rows are a permutation of the projects matching the text and status filters, sorted by the chosen column and direction. A project is shown exactly when it is in the input and matches. A status filter other than "All" keeps only that exact status |
| GeneralOverview.SummaryAgreesWithOverview | lawflow_frontend/src/ui/GeneralOverviewView.tsx:98-105 | active + completed = total, both pages count alike, and high risk is critical plus at risk |
| GeneralOverview.HighRiskSplits | lawflow_frontend/src/ui/GeneralOverviewView.tsx:102 | The high-risk count is the Critical count plus the At Risk count |
| GeneralOverview.ShowingLineText | lawflow_frontend/src/ui/GeneralOverviewView.tsx:181 | "{count}" is replaced by the number of rows: "Showing n projects" in English, "Mostrando n asuntos" in Spanish |
| GeneralOverview.EnglishShowingLine | lawflow_frontend/src/ui/GeneralOverviewView.tsx:181 | The English template with the count filled in |
| GeneralOverview.SpanishShowingLine | lawflow_frontend/src/ui/GeneralOverviewView.tsx:181 | The Spanish template with the count filled in |
| GeneralOverview.DaysLeftLabelCases | lawflow_frontend/src/ui/GeneralOverviewView.tsx:227-231 | "…d overdue" exactly for a negative count, "…d left" otherwise |
| I18n.ParseLang | lawflow_frontend/src/lib/i18n.tsx:147-148 | A stored value selects English or Spanish exactly when it is "en" or "es" |
| I18n.Lookup | lawflow_frontend/src/lib/i18n.tsx:158 | A defined key's text is taken from the one key group that holds it |
| I18n.Dict | lawflow_frontend/src/lib/i18n.tsx:157 | Spanish is the dictionary exactly for "es", and English otherwise |
| I18n.T | lawflow_frontend/src/lib/i18n.tsx:158 | A defined key gives its text. An undefined key gives the key itself |
| I18n.SameGroupKeys | lawflow_frontend/src/lib/i18n.tsx:8-138 | Dictionaries with the same keys in each group define the same keys |
| I18n.NavigationKeys | lawflow_frontend/src/lib/i18n.tsx:8-138 | The English and Spanish header and navigation groups have the same keys |
| I18n.PanelsKeys | lawflow_frontend/src/lib/i18n.tsx:8-138 | The English and Spanish panel groups have the same keys |
| I18n.OverviewKeys | lawflow_frontend/src/lib/i18n.tsx:8-138 | The English and Spanish overview groups have the same keys |
| I18n.SwitchingKeepsCoverage | lawflow_frontend/src/lib/i18n.tsx:8-138 | Switching language never changes whether a key is translated |
| I18n.ScheduleBadgeKeysMissing | lawflow_frontend/src/ui/Cronograma.tsx:92 | "overdueCount" and "noOverdue" are in neither dictionary, so the schedule badge shows the raw keys in both languages |
| I18n.EnNavigationLacksBadgeKeys | lawflow_frontend/src/lib/i18n.tsx:8-72 | The English navigation group has neither badge key |
| I18n.EnPanelsLacksBadgeKeys | lawflow_frontend/src/lib/i18n.tsx:8-72 | The English panel group has neither badge key |
| I18n.EnOverviewLacksBadgeKeys | lawflow_frontend/src/lib/i18n.tsx:8-72 | The English overview group has neither badge key |
| I18n.EsNavigationLacksBadgeKeys | lawflow_frontend/src/lib/i18n.tsx:74-138 | The Spanish navigation group has neither badge key |
| I18n.EsPanelsLacksBadgeKeys | lawflow_frontend/src/lib/i18n.tsx:74-138 | The Spanish panel group has neither badge key |
| I18n.EsOverviewLacksBadgeKeys | lawflow_frontend/src/lib/i18n.tsx:74-138 | The Spanish overview group has neither badge key |
| I18n.ShowingProjectsTexts | lawflow_frontend/src/lib/i18n.tsx:71-137 | "showingProjects" reads "Showing {count} projects" in English and "Mostrando {count} asuntos" in Spanish |
| I18n.EnShowingProjects | lawflow_frontend/src/lib/i18n.tsx:71 | The English text of "showingProjects" sits in the overview group only |
| I18n.EnNavigationLacksShowing | lawflow_frontend/src/lib/i18n.tsx:8-72 | The English navigation group lacks "showingProjects" |
| I18n.EnPanelsLacksShowing | lawflow_frontend/src/lib/i18n.tsx:8-72 | The English panel group lacks "showingProjects" |
| I18n.EnOverviewShowing | lawflow_frontend/src/lib/i18n.tsx:71 | The English overview group's "showingProjects" text |
| I18n.EsShowingProjects | lawflow_frontend/src/lib/i18n.tsx:137 | The Spanish text of "showingProjects" sits in the overview group only |
| I18n.EsNavigationLacksShowing | lawflow_frontend/src/lib/i18n.tsx:74-138 | The Spanish navigation group lacks "showingProjects" |
| I18n.EsPanelsLacksShowing | lawflow_frontend/src/lib/i18n.tsx:74-138 | The Spanish panel group lacks "showingProjects" |
| I18n.EsOverviewShowing | lawflow_frontend/src/lib/i18n.tsx:137 | The Spanish overview group's "showingProjects" text |
| I18n.LanguageState.constructor | lawflow_frontend/src/lib/i18n.tsx:143 | The provider starts in English, whatever storage holds |
| I18n.LanguageState.LoadStored | lawflow_frontend/src/lib/i18n.tsx:145-150 | A stored "en" or "es" becomes the language. Anything else leaves the language unchanged. Storage is not written |
| I18n.LanguageState.SetLang | lawflow_frontend/src/lib/i18n.tsx:152-155 | Sets the language and stores its code, which reads back as the same language |
| Overview.VisibleMeaning | lawflow_frontend/src/ui/OverviewView.tsx:51-76 | The rows are a permutation of the projects whose title, location or status contains the filter, ignoring case. A project is shown exactly when it matches. The rows are sorted by the chosen column and direction |
| Overview.EmptyFilterKeepsAll | lawflow_frontend/src/ui/OverviewView.tsx:52-56 | An empty filter keeps every project, in order |
| Overview.SummaryAddsUp | lawflow_frontend/src/ui/OverviewView.tsx:87-95 | Active and completed add up to the total. Critical plus at risk never exceeds it |
| Overview.UrgencyOf | lawflow_frontend/src/ui/OverviewView.tsx:184-186 | Overdue exactly for a negative count of days. Due soon exactly for 0..7 days |
| Overview.DaysLeftLabelCases | lawflow_frontend/src/ui/OverviewView.tsx:229-232 | "… days overdue" exactly when negative, "Due today" exactly at 0, "Tomorrow" exactly at 1, "… days left" exactly from 2 on |
| Pagination.ReadParamsMeaning | lawflow_backend/app/pagination.py:8-12 | Accepted parameters satisfy page > 0, 0 < size <= 100 and order "asc" or "desc". The defaults are page 1, size 50, order "desc". A page below 1 or a size outside 1..100 gives 422. Given values are kept |
| Pagination.OrderingMeaning | lawflow_backend/app/pagination.py:42-49 | A sort is applied exactly when `sort_by` is non-empty, allowed and a model attribute. It is descending exactly for "desc". An empty allowed list never sorts |
| Pagination.ThenByIsTotalPreorder | lawflow_backend/app/pagination.py:46-49 | Appending a column to an existing order gives a total preorder again |
| Pagination.OrderedMeaning | lawflow_backend/app/pagination.py:42-49 | Ordering permutes the rows. The query's own ORDER BY comes first, and among rows it ties the column sorts them upwards or downwards as chosen |
| Pagination.PagesIsCeiling | lawflow_backend/app/pagination.py:58 | The page count is the ceiling of total over size, and 0 exactly when there are no rows |
| Pagination.Ceiling | lawflow_backend/app/pagination.py:58 | `(n + s - 1) // s` is the least count of pages of size `s` that holds `n` rows |
| Pagination.PageFlags | lawflow_backend/app/pagination.py:52-70 | The response carries the total, page and size. There is a previous page exactly after page 1, and a next page exactly when rows lie beyond this page |
| Pagination.PageItems | lawflow_backend/app/pagination.py:55 | At most `size` items, taken in order from offset (page-1)*size. A page past the last is empty. A page before the last is full |
| Pagination.RowOnItsPage | lawflow_backend/app/pagination.py:55 | Row k appears on page k div size + 1, at position k mod size |
| Patches.PatchTask | lawflow_backend/app/routers/tasks.py:21-23 | The loop sets each sent field in turn. It reports a refusal exactly when a null is sent into a column that cannot hold one |
| Patches.ApplyTaskStep | lawflow_backend/app/routers/tasks.py:22-23 | Applying one field and then the rest is applying the whole payload |
| Patches.TitleStep | lawflow_backend/app/routers/tasks.py:22-23 | A sent title is written first. A null title is refused |
| Patches.StatusStep | lawflow_backend/app/routers/tasks.py:22-23 | A sent status is written. A null status is refused |
| Patches.AssigneeStep | lawflow_backend/app/routers/tasks.py:22-23 | A sent assignee is written. A null assignee is refused |
| Patches.DueDateStep | lawflow_backend/app/routers/tasks.py:22-23 | A sent due date, null included, is written and never refused |
| Patches.PriorityStep | lawflow_backend/app/routers/tasks.py:22-23 | A sent priority is written. A null priority is refused |
| Patches.TagsStep | lawflow_backend/app/routers/tasks.py:22-23 | Sent tags, null included, are written and never refused |
| Patches.DescriptionStep | lawflow_backend/app/routers/tasks.py:22-23 | A sent description, null included, is written and never refused |
| Patches.TaskPayloadApplied | lawflow_backend/app/routers/tasks.py:21-23 | Setting the sent fields one by one gives the field-wise patched task |
| Patches.TaskPayloadRefused | lawflow_backend/app/routers/tasks.py:21-23 | The loop refuses exactly when the update sends null for title, status, assignee or priority |
| Patches.PatchedTaskMeaning | lawflow_backend/app/routers/tasks.py:21-23 | Each sent field takes its new value and each unsent field keeps its old one. The id and project never change. An empty update changes nothing |
| Patches.PatchProject | lawflow_backend/app/routers/projects.py:34-36 | The loop sets each sent field in turn. It reports a refusal exactly when a null is sent into a column that cannot hold one |
| Patches.ApplyProjectStep | lawflow_backend/app/routers/projects.py:35-36 | Applying one field and then the rest is applying the whole payload |
| Patches.ProjectTitleStep | lawflow_backend/app/routers/projects.py:35-36 | A sent title is written. A null title is refused |
| Patches.ProjectStatusStep | lawflow_backend/app/routers/projects.py:35-36 | A sent status is written. A null status is refused |
| Patches.RiskStep | lawflow_backend/app/routers/projects.py:35-36 | A sent risk is written. A null risk is refused |
| Patches.TargetCloseStep | lawflow_backend/app/routers/projects.py:35-36 | A sent target date, null included, is written and never refused |
| Patches.BgColorStep | lawflow_backend/app/routers/projects.py:35-36 | A sent colour is written. A null colour is refused |
| Patches.ProjectPayloadApplied | lawflow_backend/app/routers/projects.py:34-36 | Setting the sent fields one by one gives the field-wise patched project |
| Patches.ProjectPayloadRefused | lawflow_backend/app/routers/projects.py:34-36 | The loop refuses exactly when the update sends null for title, status, risk or colour |
| Patches.PatchedProjectMeaning | lawflow_backend/app/routers/projects.py:34-36 | Each sent field takes its new value and each unsent one keeps its old one. The id, client, start date, type and location never change |
| Patches.JoinStartsWith | lawflow_backend/app/routers/projects.py:37 | A joined list starts with its first part |
| Patches.UpdateDetailDash | lawflow_backend/app/routers/projects.py:37 | The activity detail is "—" exactly when no field was sent |
| Patches.ProjectPayloadEmpty | lawflow_backend/app/routers/projects.py:34 | The payload is empty exactly when no field is set |
| Patches.UpdateDetailMeaning | lawflow_backend/app/routers/projects.py:34-37 | The detail is "—" exactly when the update sets no field |
| Patches.UpdateDetailTitleOnly | lawflow_backend/app/routers/projects.py:37 | A title-only update is logged as "title" |
| Patches.UpdateDetailAllFields | lawflow_backend/app/routers/projects.py:37 | A full update is logged as "title, status, risk, target_close_date, bg_color" |
| ProjectSort.SortKey | lawflow_frontend/src/ui/GeneralOverviewView.tsx:66-80 | The date column gives Infinity exactly for a project without a target date. Every other column compares text |
| ProjectSort.KeyLessAsymmetric | lawflow_frontend/src/ui/GeneralOverviewView.tsx:81-82 | The comparator's `<` never holds both ways |
| ProjectSort.KeyLessTransitive | lawflow_frontend/src/ui/GeneralOverviewView.tsx:81-82 | The comparator's `<` is transitive |
| ProjectSort.KeyLessTrichotomy | lawflow_frontend/src/ui/GeneralOverviewView.tsx:81-82 | Two keys are equal or one is less than the other |
| ProjectSort.KeyNotLessTransitive | lawflow_frontend/src/ui/GeneralOverviewView.tsx:81-83 | "Not less" is transitive, so ties and order combine consistently |
| ProjectSort.LeIsTotalPreorder | lawflow_frontend/src/ui/GeneralOverviewView.tsx:64-84 | For every column and direction the comparator is a total preorder, so sorting by it is well defined |
| ProjectSort.SortedMeaning | lawflow_frontend/src/ui/GeneralOverviewView.tsx:81-82 | In sorted rows, a later row's key is never below an earlier one's when ascending, and never above it when descending |
| ProjectSort.SortMeaning | lawflow_frontend/src/ui/GeneralOverviewView.tsx:64-84 | Sorting permutes the rows, sorts them and keeps tied rows in their input order |
| ProjectSort.MissingDateIsInfinity | lawflow_frontend/src/ui/GeneralOverviewView.tsx:71-74 | Sorted by date ascending, undated projects come last. Descending, they come first |
| ProjectSort.NoClientFirst | lawflow_frontend/src/ui/GeneralOverviewView.tsx:68-70 | Sorted by client ascending, only projects with an empty client name can precede one without a client |
| ProjectSort.NextSort | lawflow_frontend/src/ui/GeneralOverviewView.tsx:89-96 | Clicking the current column flips the direction. Clicking another column selects it ascending |
| ProjectSort.ClickTwice | lawflow_frontend/src/ui/GeneralOverviewView.tsx:89-96 | Clicking the same column twice restores the state. Clicking a new column twice leaves it descending |
| ProjectSort.SortState.constructor | lawflow_frontend/src/ui/GeneralOverviewView.tsx:47-48 | The page opens sorted by target close date, ascending |
| ProjectSort.SortState.HandleSort | lawflow_frontend/src/ui/OverviewView.tsx:78-85 | A header click moves the state to the next sort |
| Settings.LoadSettings | lawflow_frontend/src/ui/SettingsView.tsx:13-25 | Nothing stored, or text that does not parse, gives the defaults. Density is Compact exactly for the string "Compact". A string colour is kept, anything else gives "#0b1220" |
| Settings.SaveSettings | lawflow_frontend/src/ui/SettingsView.tsx:27-29 | Saving writes parsed JSON holding the colour as a string |
| Settings.SaveThenLoad | lawflow_frontend/src/ui/SettingsView.tsx:13-29 | Loading what was saved gives back the same settings |
| Settings.OnlyExactCompact | lawflow_frontend/src/ui/SettingsView.tsx:20 | Any density text other than "Compact" loads as Comfort |
| Settings.DefaultIsFirstSwatch | lawflow_frontend/src/ui/SettingsView.tsx:36 | The palette has ten swatches, and the first is the default colour |
| Settings.SettingsPanel.constructor | lawflow_frontend/src/ui/SettingsView.tsx:33 | The panel starts from the loaded settings |
| Settings.SettingsPanel.PickSwatch | lawflow_frontend/src/ui/SettingsView.tsx:65-68 | Picking a swatch changes only the colour and saves settings that load back unchanged |
| Settings.SettingsPanel.PickDensity | lawflow_frontend/src/ui/SettingsView.tsx:79-80 | Picking a density changes only the density and saves settings that load back unchanged |
| Sorting.Insert | lawflow_frontend/src/ui/OverviewView.tsx:58-73 | Inserting adds exactly one element to the multiset |
| Sorting.Sort | lawflow_frontend/src/ui/OverviewView.tsx:58-73 | Sorting keeps the multiset and the length |
| Sorting.InsertSorted | lawflow_frontend/src/ui/OverviewView.tsx:58-73 | Inserting into sorted rows under a total preorder keeps them sorted |
| Sorting.SortSorted | lawflow_frontend/src/ui/OverviewView.tsx:58-73 | The result is sorted under any total preorder |
| Sorting.InsertTies | lawflow_frontend/src/ui/OverviewView.tsx:58-73 | Inserting keeps the relative order of the elements tied with any given one |
| Sorting.SortStable | lawflow_frontend/src/ui/OverviewView.tsx:58-73 | Like `Array.prototype.sort`, the sort is stable: tied elements keep their input order |
| TaskCard.PriorityDot | lawflow_frontend/src/ui/TaskCard.tsx:5-9 | The priority dot is always coloured |
| TaskCard.PriorityDotCases | lawflow_frontend/src/ui/TaskCard.tsx:5-9 | Red exactly for "Alta", amber exactly for "Media". The priorities the app stores (Low, Medium, High) are all green |
| TaskCard.DueTone | lawflow_frontend/src/ui/TaskCard.tsx:11-12 | A plain dot exactly when there is no due date |
| TaskCard.DueToneCases | lawflow_frontend/src/ui/TaskCard.tsx:11-20 | Red exactly when past due, amber exactly within the next 7 days, today included, and green beyond |
| TaskCard.DueToneAgrees | lawflow_frontend/src/ui/TaskCard.tsx:11-20 | Red and amber agree with the overview's overdue and due-soon. For a task not Done they agree with the dashboard's overdue and due-in-7 counts |
| TaskCard.MetaLineShape | lawflow_frontend/src/ui/TaskCard.tsx:37-48 | The meta line shows the assignee, the due date or "No due date", and the tags only when present |
| TasksTable.DueKey | lawflow_frontend/src/ui/TasksTable.tsx:14 | The sort key is empty exactly for an undated task |
| TasksTable.ByDueIsTotalPreorder | lawflow_frontend/src/ui/TasksTable.tsx:14 | Comparing the due-date texts is a total preorder |
| TasksTable.RowsMeaning | lawflow_frontend/src/ui/TasksTable.tsx:14 | The rows are a permutation of the tasks, in ascending order of due-date text, with ties kept in input order |
| TasksTable.UndatedFirst | lawflow_frontend/src/ui/TasksTable.tsx:14 | Undated tasks come before every dated one |
| TasksTable.SingleFieldPatches | lawflow_frontend/src/ui/TasksTable.tsx:33-57 | Each edit sends exactly one field: the status, the due date (null when cleared) or the priority |
| Templates.EntriesComplete | lawflow_backend/app/routers/templates.py:7-41 | Each municipality has both transaction types, each with items in both lists |
| Templates.MuniCoverage | lawflow_backend/app/routers/templates.py:7-41 | The table covers Marbella, Mijas and Estepona, all complete |
| Templates.GetTemplatesMeaning | lawflow_backend/app/routers/templates.py:43-47 | The answer echoes the request's names. A known pair gets its lists and an unknown one gets two empty lists. Document templates are non-empty exactly for a known pair |
| Templates.LookupIsCaseSensitive | lawflow_backend/app/routers/templates.py:45-46 | "marbella" or "purchase" finds nothing, while "Marbella"/"Purchase" finds three document templates |
| Templates.MuniKeys | lawflow_backend/app/routers/templates.py:7-41 | The table's keys are exactly the three municipalities |
| Templates.MarbellaPurchase | lawflow_backend/app/routers/templates.py:8-20 | Marbella knows "Purchase" but not "purchase", and lists three purchase documents |
| ThemeToggle.InitialTheme | lawflow_frontend/src/ui/components/ThemeToggle.tsx:6-16 | Light exactly when "light" is stored. "dark" and anything else give dark |
| ThemeToggle.Flip | lawflow_frontend/src/ui/components/ThemeToggle.tsx:33 | Toggling always changes the theme |
| ThemeToggle.AttributeFor | lawflow_frontend/src/ui/components/ThemeToggle.tsx:19-24 | The `data-theme` attribute is set, to "light", exactly in the light theme |
| ThemeToggle.PersistedThemeReloads | lawflow_frontend/src/ui/components/ThemeToggle.tsx:6-29 | A stored theme is the one picked at the next load |
| ThemeToggle.FlipTwice | lawflow_frontend/src/ui/components/ThemeToggle.tsx:32-34 | Toggling twice restores the theme |
| ThemeToggle.ThemeSwitch.constructor | lawflow_frontend/src/ui/components/ThemeToggle.tsx:6-30 | Mounting picks the initial theme, sets the attribute and stores the theme |
| ThemeToggle.ThemeSwitch.Toggle | lawflow_frontend/src/ui/components/ThemeToggle.tsx:18-34 | Toggling flips the theme, updates the attribute and stores it, so a reload keeps it |
| Seed.SeedItemsAt | lawflow_backend/app/seed.py:417-445 | The template loop writes one row per template entry, under consecutive keys, each as its entry and position say |
| Seed.ChecklistRowsMeaning | lawflow_backend/app/seed.py:417-445 | A purchase gets 14 rows and a sale 7, under consecutive keys. Each row carries its template entry. The first DoneCount rows are done, and only they. Item i is due today+2i+1, so due dates rise and all lie after today |
| Seed.ChecklistLateStages | lawflow_backend/app/seed.py:423-435 | A sale at Notary or Registry has every item done. A purchase at Registry has everything done except the Registro stage |
| Seed.AppendChecklist | lawflow_backend/app/seed.py:437-445 | Adds one checklist row under the next key and changes nothing else |
| Seed.DoneFlag | lawflow_backend/app/seed.py:421-435 | An item is done exactly when its position is below the count for the project's status and risk |
| Seed.AddItems | lawflow_backend/app/seed.py:419-445 | The loop appends the template's rows under consecutive keys and changes no other table |
| Seed.AddItem | lawflow_backend/app/seed.py:419-445 | One loop step appends the next template row |
| Seed.AddChecklist | lawflow_backend/app/seed.py:417-445 | `add_checklist` appends exactly the project's checklist rows |
| Seed.PhasesChain | lawflow_backend/app/seed.py:363-369 | Five phases, each starting no later than it ends, each starting after the previous one starts and before it ends |
| Seed.TimelineRows | lawflow_backend/app/seed.py:362-381 | Every project gets six timeline rows |
| Seed.PhaseRowsAt | lawflow_backend/app/seed.py:370-379 | The phase loop writes one row per phase under consecutive keys |
| Seed.TimelineRowsMeaning | lawflow_backend/app/seed.py:362-381 | Five phases named Intake, Due Diligence, Contracts, Notary and Registry, chained in time, then the "Target completion" milestone on today+close |
| Seed.AppendTimeline | lawflow_backend/app/seed.py:371-381 | Adds one timeline row under the next key and changes nothing else |
| Seed.AddPhases | lawflow_backend/app/seed.py:370-379 | The loop appends the phase rows and changes no other table |
| Seed.AddPhase | lawflow_backend/app/seed.py:370-379 | One loop step appends the next phase row |
| Seed.AddTimeline | lawflow_backend/app/seed.py:362-381 | `add_timeline` appends the six rows of the project's timeline |
| Seed.SeedDueMeaning | lawflow_backend/app/seed.py:247 | A seeded task has a due date exactly when given an offset. The client counts that many days to it, so a negative offset is overdue |
| Seed.SeedStampMeaning | lawflow_backend/app/seed.py:452-460 | A positive age stores that day's midnight, and an age of 0 the current time. On the seeding day, older activities have earlier stamps |
| Seed.AddTask | lawflow_backend/app/seed.py:240-253 | `add_task` appends one task under the next key, due as the offset says, and changes no other table |
| Seed.AddActivity | lawflow_backend/app/seed.py:452-460 | `add_activity` appends one activity under the next key with the stamp for its age |
| Seed.UploadNeverSeedPath | lawflow_backend/app/seed.py:504 | An upload's path is never a seeded file's "seed/…" path |
| Seed.AddSeedFile | lawflow_backend/app/seed.py:504-527 | A demo file is metadata only: a row under the next key pointing at "seed/<name>". While nothing is on disk there, downloading it gives 404 |
| Seed.LastRowNotOnDisk | lawflow_backend/app/routers/files.py:46-54 | The newest file row cannot be downloaded while its file is missing |
| Seed.ClientRows | lawflow_backend/app/seed.py:38-64 | The client rows take consecutive keys |
| Seed.ProjectRows | lawflow_backend/app/seed.py:66-237 | The project rows take consecutive keys |
| Seed.ProjectRowsAt | lawflow_backend/app/seed.py:66-237 | Each project row is built from its plan entry and its key |
| Seed.TaskRows | lawflow_backend/app/seed.py:240-253 | The task rows take consecutive keys |
| Seed.ActivityRows | lawflow_backend/app/seed.py:452-460 | The activity rows take consecutive keys |
| Seed.FileRows | lawflow_backend/app/seed.py:504-619 | The file rows take consecutive keys |
| Seed.SeedClients | lawflow_backend/app/seed.py:38-64 | Appends the plan's clients under consecutive keys and changes nothing else |
| Seed.SeedClient | lawflow_backend/app/seed.py:63 | One step appends the next client |
| Seed.AppendProject | lawflow_backend/app/seed.py:236-237 | Adds one project under the next key and changes nothing else |
| Seed.SeedProjects | lawflow_backend/app/seed.py:66-237 | Appends the plan's projects under consecutive keys and changes nothing else |
| Seed.SeedProject | lawflow_backend/app/seed.py:236 | One step appends the next project |
| Seed.SeedTasks | lawflow_backend/app/seed.py:240-360 | Appends the plan's tasks in order and changes nothing else |
| Seed.SeedTask | lawflow_backend/app/seed.py:240-253 | One step appends the next task |
| Seed.SeedTimelines | lawflow_backend/app/seed.py:383-414 | Appends six timeline rows per project, in project order, and changes nothing else |
| Seed.SeedTimeline | lawflow_backend/app/seed.py:384-414 | One step appends the next project's timeline |
| Seed.SeedChecklists | lawflow_backend/app/seed.py:447-449 | Appends every project's checklist, in project order, and changes nothing else |
| Seed.SeedActivities | lawflow_backend/app/seed.py:452-623 | Appends the plan's activities in order and changes nothing else |
| Seed.SeedActivity | lawflow_backend/app/seed.py:452-460 | One step appends the next activity |
| Seed.SeedFiles | lawflow_backend/app/seed.py:504-619 | Appends the plan's file rows in order and changes nothing else |
| Seed.SeedFile | lawflow_backend/app/seed.py:504-619 | One step appends the next file row |
| Seed.SeedIfEmpty | lawflow_backend/app/seed.py:32-623 | Nothing changes when any project exists. Otherwise it appends clients, projects under keys 1.., tasks, timelines, checklists, activities, file rows and one marker activity per project, in that order, and writes nothing to disk |
| Seed.ActivityRowsAt | lawflow_backend/app/seed.py:452-460 | Activity row i is plan activity i under key first + i |
| Seed.SeededMarkers | lawflow_backend/app/seed.py:621-623 | After the plan's activities comes one "Seeded demo project" activity by "System" per project, in project order, with the project's title as detail and the current time as stamp |
| Seed.AllTimelinesAt | lawflow_backend/app/seed.py:383-414 | Timeline row i belongs to project i div 6 and is row i mod 6 of its timeline |
| Seed.SeededMilestones | lawflow_backend/app/seed.py:380-414 | Each seeded project gets six rows, the sixth being its milestone, which falls on the project's own target close date |
| Text.TrimEnd | lawflow_frontend/src/ui/GlobalSearchModal.tsx:30 | Drops exactly the trailing white space |
| Text.TrimStart | lawflow_frontend/src/ui/GlobalSearchModal.tsx:30 | Drops exactly the leading white space |
| Text.Trim | lawflow_frontend/src/ui/GlobalSearchModal.tsx:30 | Never longer than its input. Empty exactly when the input is all white space |
| Text.Lower | lawflow_frontend/src/ui/GlobalSearchModal.tsx:30 | Lower-cases character by character and keeps the length |
| Text.LowerAppend | lawflow_frontend/src/ui/GlobalSearchModal.tsx:35-43 | Lower-casing distributes over concatenation |
| Text.Framed | lawflow_backend/app/routers/calendar.py:19-49 | A text built as head+middle+tail starts with the head and ends with the tail |
| Text.ContainsEmpty | lawflow_frontend/src/ui/FilesRoom.tsx:28 | Every text contains the empty text |
| Text.IndexOf | lawflow_frontend/src/ui/GeneralOverviewView.tsx:181 | The first occurrence at or after a position, or -1 when there is none |
| Text.ReplaceFirstAt | lawflow_frontend/src/ui/GeneralOverviewView.tsx:181 | Replacing the first occurrence in pre+pattern+post, with no earlier start, gives pre+replacement+post |
| Text.ReplaceFirstAbsent | lawflow_frontend/src/ui/GeneralOverviewView.tsx:181 | A text without the pattern is left alone |
| Text.ReplaceAllSingle | lawflow_backend/app/file_utils.py:91 | Replacing a one-character pattern replaces each occurrence of that character |
| Text.ReplaceCharAppend | lawflow_backend/app/routers/calendar.py:9-10 | Replacing a character distributes over concatenation |
| Text.ReplaceCharRemoves | lawflow_backend/app/file_utils.py:91 | After replacing a character by a text without it, the character is gone |
| Text.ReplaceCharAbsent | lawflow_backend/app/file_utils.py:91 | A text without the character is unchanged |
| Text.NatToString | lawflow_frontend/src/lib/formatting.ts:16 | A natural number prints as at least one decimal digit |
| Text.IntToString | lawflow_frontend/src/lib/formatting.ts:16 | At least one character, with a leading "-" exactly for a negative number |
| Dates.NatToStringValue | lawflow_frontend/src/lib/formatting.ts:16 | The decimal digits printed for a natural number read back as that number |
| Dates.IntToStringValue | lawflow_frontend/src/lib/formatting.ts:16 | A non-negative number prints as its own decimal value; a negative one as "-" followed by the digits of its magnitude |
| Text.NatToStringInjective | lawflow_frontend/src/lib/formatting.ts:16 | Different naturals print differently |
| Text.IntToStringInjective | lawflow_backend/app/routers/closing_pack.py:72 | Different integers print differently |
| Text.LinesAppend | lawflow_backend/app/routers/closing_pack.py:61 | Writing lines each ending in a newline distributes over concatenation |
| Text.JoinThenNewline | lawflow_backend/app/routers/closing_pack.py:61 | Joining with newlines and adding a final newline ends every line with a newline |
| Text.LexLessIrreflexive | lawflow_frontend/src/ui/TasksTable.tsx:14 | No text sorts before itself |
| Text.LexLessTrichotomy | lawflow_frontend/src/ui/TasksTable.tsx:14 | Two texts are equal or one sorts first |
| Text.LexLessAsymmetric | lawflow_frontend/src/ui/TasksTable.tsx:14 | Two texts never each sort before the other |
| Text.LexLessTransitive | lawflow_frontend/src/ui/TasksTable.tsx:14 | Text order is transitive |
| TranslateMigration.RewriteAll | lawflow_backend/alembic/versions/8be2436779fe_translate_checklist_items_to_spanish.py:74-82 | The pass gives one row per row |
| TranslateMigration.SetWhere | lawflow_backend/alembic/versions/8be2436779fe_translate_checklist_items_to_spanish.py:79-82 | The UPDATE keeps the number of rows |
| TranslateMigration.IntakeLabelsAreFinal | lawflow_backend/alembic/versions/8be2436779fe_translate_checklist_items_to_spanish.py:25-30 | No Spanish intake label is itself a key of the label table |
| TranslateMigration.IntakeLabelsEarly | lawflow_backend/alembic/versions/8be2436779fe_translate_checklist_items_to_spanish.py:25-43 | Spanish intake labels are not intake, DD or contract keys |
| TranslateMigration.IntakeLabelsLate | lawflow_backend/alembic/versions/8be2436779fe_translate_checklist_items_to_spanish.py:44-57 | Spanish intake labels are not notary, closing or registry keys |
| TranslateMigration.DiligenceLabelsAreFinal | lawflow_backend/alembic/versions/8be2436779fe_translate_checklist_items_to_spanish.py:31-38 | No Spanish DD label is itself a key |
| TranslateMigration.DiligenceLabelsEarly | lawflow_backend/alembic/versions/8be2436779fe_translate_checklist_items_to_spanish.py:25-43 | Spanish DD labels are not intake, DD or contract keys |
| TranslateMigration.DiligenceLabelsLate | lawflow_backend/alembic/versions/8be2436779fe_translate_checklist_items_to_spanish.py:44-57 | Spanish DD labels are not notary, closing or registry keys |
| TranslateMigration.ContractLabelsAreFinal | lawflow_backend/alembic/versions/8be2436779fe_translate_checklist_items_to_spanish.py:39-43 | No Spanish contract label is itself a key |
| TranslateMigration.ContractLabelsEarly | lawflow_backend/alembic/versions/8be2436779fe_translate_checklist_items_to_spanish.py:25-43 | Spanish contract labels are not intake, DD or contract keys |
| TranslateMigration.ContractLabelsLate | lawflow_backend/alembic/versions/8be2436779fe_translate_checklist_items_to_spanish.py:44-57 | Spanish contract labels are not notary, closing or registry keys |
| TranslateMigration.NotaryLabelsAreFinal | lawflow_backend/alembic/versions/8be2436779fe_translate_checklist_items_to_spanish.py:44-48 | No Spanish notary label is itself a key |
| TranslateMigration.NotaryLabelsEarly | lawflow_backend/alembic/versions/8be2436779fe_translate_checklist_items_to_spanish.py:25-43 | Spanish notary labels are not intake, DD or contract keys |
| TranslateMigration.NotaryLabelsLate | lawflow_backend/alembic/versions/8be2436779fe_translate_checklist_items_to_spanish.py:44-57 | Spanish notary labels are not notary, closing or registry keys |
| TranslateMigration.ClosingLabelsAreFinal | lawflow_backend/alembic/versions/8be2436779fe_translate_checklist_items_to_spanish.py:49-52 | No Spanish closing label is itself a key |
| TranslateMigration.ClosingLabelsEarly | lawflow_backend/alembic/versions/8be2436779fe_translate_checklist_items_to_spanish.py:25-43 | Spanish closing labels are not intake, DD or contract keys |
| TranslateMigration.ClosingLabelsLate | lawflow_backend/alembic/versions/8be2436779fe_translate_checklist_items_to_spanish.py:44-57 | Spanish closing labels are not notary, closing or registry keys |
| TranslateMigration.RegistryLabelsAreFinal | lawflow_backend/alembic/versions/8be2436779fe_translate_checklist_items_to_spanish.py:53-56 | No Spanish registry label is itself a key |
| TranslateMigration.RegistryLabelsEarly | lawflow_backend/alembic/versions/8be2436779fe_translate_checklist_items_to_spanish.py:25-43 | Spanish registry labels are not intake, DD or contract keys |
| TranslateMigration.RegistryLabelsLate | lawflow_backend/alembic/versions/8be2436779fe_translate_checklist_items_to_spanish.py:44-57 | Spanish registry labels are not notary, closing or registry keys |
| TranslateMigration.LabelTranslationIsFinal | lawflow_backend/alembic/versions/8be2436779fe_translate_checklist_items_to_spanish.py:24-57 | Translating a label twice is translating it once |
| TranslateMigration.Untouched | lawflow_backend/alembic/versions/8be2436779fe_translate_checklist_items_to_spanish.py:75 | A label that is not a key is kept |
| TranslateMigration.StageTranslationsAreFinal | lawflow_backend/alembic/versions/8be2436779fe_translate_checklist_items_to_spanish.py:60-67 | No translated stage is itself a key of the stage table |
| TranslateMigration.TranslateTwice | lawflow_backend/alembic/versions/8be2436779fe_translate_checklist_items_to_spanish.py:74-82 | Rewriting a row twice is rewriting it once, and a rewritten row no longer differs |
| TranslateMigration.DiffersMeaning | lawflow_backend/alembic/versions/8be2436779fe_translate_checklist_items_to_spanish.py:78 | A row is written exactly when the pass would change it |
| TranslateMigration.StageTable | lawflow_backend/alembic/versions/8be2436779fe_translate_checklist_items_to_spanish.py:60-67 | The five English stages become Admision, Contratos, Notaría, Cierre and Registro. "DD" and any other stage are kept |
| TranslateMigration.WrittenIdsMeaning | lawflow_backend/alembic/versions/8be2436779fe_translate_checklist_items_to_spanish.py:74-82 | The pass writes exactly the keys of the rows it changes, at most one write per row |
| TranslateMigration.UpgradeTwice | lawflow_backend/alembic/versions/8be2436779fe_translate_checklist_items_to_spanish.py:21-82 | Running the upgrade twice gives the same table as once, and the second run writes nothing |
| TranslateMigration.NothingWritten | lawflow_backend/alembic/versions/8be2436779fe_translate_checklist_items_to_spanish.py:78 | When no row differs, nothing is written |
| TranslateMigration.UpdateRow | lawflow_backend/alembic/versions/8be2436779fe_translate_checklist_items_to_spanish.py:79-82 | The UPDATE sets label and stage on the rows with the key |
| TranslateMigration.RewriteRows | lawflow_backend/alembic/versions/8be2436779fe_translate_checklist_items_to_spanish.py:69-82 | The pass leaves every row rewritten, writes exactly the changed keys, and keeps keys, projects, done flags and due dates |
| TranslateMigration.Upgrade | lawflow_backend/alembic/versions/8be2436779fe_translate_checklist_items_to_spanish.py:21-82 | `upgrade()` rewrites the table with the Spanish tables and reports the keys it wrote |
| TranslateMigration.Downgrade | lawflow_backend/alembic/versions/8be2436779fe_translate_checklist_items_to_spanish.py:85-87 | `downgrade()` changes nothing |
| Entities.OrElse | lawflow_frontend/src/ui/GlobalSearchModal.tsx:35 | A present value, or the fallback when absent |
| Common.Filter | lawflow_frontend/src/ui/FilesRoom.tsx:25-29 | Keeping the elements that pass a test never lengthens the sequence |
| Common.AppendTail | lawflow_backend/app/models.py:17 | Appending in two steps is appending the joined rows |
| Common.FilterSingle | lawflow_frontend/src/ui/FilesRoom.tsx:25-29 | Filtering one element keeps it exactly when it passes |
| Common.FilterMembers | lawflow_frontend/src/ui/FilesRoom.tsx:25-29 | An element is kept exactly when it is in the input and passes the test |
| Common.FilterNone | lawflow_frontend/src/ui/FilesRoom.tsx:25-29 | Nothing passing means nothing kept |
| Common.FilterAll | lawflow_frontend/src/ui/FilesRoom.tsx:25-29 | Everything passing means everything kept, in order |
| Common.FilterIsSubsequence | lawflow_frontend/src/ui/FilesRoom.tsx:25-29 | The kept elements are a subsequence of the input |
| Common.FilterAppend | lawflow_frontend/src/ui/FilesRoom.tsx:25-29 | Filtering distributes over concatenation |
| Common.FilterFilter | lawflow_frontend/src/ui/GeneralOverviewView.tsx:53-62 | Filtering twice is filtering once by both tests |
| Common.CountSplit | lawflow_frontend/src/ui/OverviewView.tsx:87-95 | A test and its negation count every element once |
| Common.CountMono | lawflow_frontend/src/ui/OverviewView.tsx:87-95 | A weaker test counts at least as many |
| Common.CountDisjoint | lawflow_frontend/src/ui/OverviewView.tsx:87-95 | Two exclusive tests count at most the length together |
| Common.Take | lawflow_frontend/src/ui/GlobalSearchModal.tsx:46 | `slice(0, n)`: the first n elements, or all when there are fewer |
| Common.Map | lawflow_frontend/src/ui/GlobalSearchModal.tsx:34-45 | Mapping keeps the length and maps each element in place |
| Common.MapAppend | lawflow_frontend/src/ui/GlobalSearchModal.tsx:34-45 | Mapping distributes over concatenation |
| Common.MapSnoc | lawflow_frontend/src/ui/GlobalSearchModal.tsx:34-45 | Mapping one more element appends its image |
| Common.MapFilterSnoc | lawflow_frontend/src/ui/GlobalSearchModal.tsx:34-45 | Filtering and mapping one more element appends its image exactly when it passes |
| Common.MapFilterPrefix | lawflow_frontend/src/ui/GlobalSearchModal.tsx:34-45 | The same, one loop step at a time over a prefix |
| Common.FilterPrefix | lawflow_frontend/src/ui/GlobalSearchModal.tsx:34-45 | Filtering a prefix one element longer appends that element exactly when it passes |
| Common.FilterDownwardPrefix | lawflow_frontend/src/ui/ClosingPackWizard.tsx:56-59 | When passing is closed downwards, the kept elements are a prefix of the input |
| CrossChecks.NeedIsTranslated | lawflow_frontend/src/ui/ClosingPackWizard.tsx:45-50 | Every stage a wizard step asks for is an English name that the migration translates to something else |
| CrossChecks.AbsentStagesNeverMissing | lawflow_frontend/src/ui/ClosingPackWizard.tsx:52-62 | With no row carrying a needed stage, no stage is ever short, and the wizard is ready exactly when fewer than two tasks are overdue |
| CrossChecks.MigratedChecklistSkipped | lawflow_backend/alembic/versions/8be2436779fe_translate_checklist_items_to_spanish.py:60-82 | After the migration no row has a stage the wizard asks for, so readiness depends on the overdue count alone |
| CrossChecks.SeedStagesAreSpanish | lawflow_backend/app/seed.py:5-30 | The seed templates use only the stages Admision, DD, Contratos, Notaría, Cierre and Registro |
| CrossChecks.SeededChecklistSkipped | lawflow_backend/app/seed.py:417-445 | A freshly seeded checklist never gates the wizard either |
| CrossChecks.DoneIsOpenForWizard | lawflow_frontend/src/ui/ClosingPackWizard.tsx:30 | A task finished as "Done" is open for the wizard, which treats only "Hecho" as finished, while the readiness card and the closing pack treat it as closed |
| CrossChecks.FinishedTasksBlockWizard | lawflow_frontend/src/ui/ClosingPackView.tsx:31 | Two "Done" tasks due yesterday: the readiness card shows "Ready" while the wizard refuses every step |
| CrossChecks.PreviewAgreesOnPlainTypes | lawflow_frontend/src/ui/FilesRoom.tsx:104-111 | The backend's PDF type gets the PDF frame. The drawer shows an image tag exactly for backend images whose type does not mention "pdf" |
| CrossChecks.ImageNamedPdf | lawflow_backend/app/file_utils.py:100-106 | "image/x-pdf" is an image to the backend but gets the PDF frame in the drawer |

## Left out

- Rendering: JSX markup, CSS and the purely visual components (Modal, Drawer, ErrorBoundary, Callout, CustomDropdown, ActivityFeed, main.tsx) draw what the modelled state holds and decide nothing themselves.
- Form-only modals (NewProjectModal, QuickAddModal, MatterSettingsView) only collect fields and post them; the routes they call are modelled in `Db`.
- The `api.ts` fetch wrappers, async handlers and `refreshAll`'s `Promise.all`: network and promise scheduling are not modelled, so a stale response that lands after a newer one is not captured.
- JavaScript `Date`, locale date formatting and time zones: dates are day numbers and today and the current instant are parameters; `Math.round` of a float day difference is the exact integer difference of two day numbers.
- ClosingPackWizard.Threshold: `Math.ceil(total * 0.6)` is the exact integer ceiling of 3·total/5; a float rounding error in the product is not modelled.
- FileUtils: the `:.0f` float formatting of the size limit in the error text is the fixed string the constant prints.
- Browser storage and `JSON.parse`: a storage slot is modelled by the shape of what it holds (absent, not valid JSON, not an array, an array of elements), not as raw text. DOM attribute writes beyond the theme state are left out.
- App.IdStore.UpsertRecent, App.IdStore.TogglePin, Settings.SaveSettings, Settings.SettingsPanel.PickSwatch, Settings.SettingsPanel.PickDensity, ThemeToggle.ThemeSwitch.constructor, ThemeToggle.ThemeSwitch.Toggle, I18n.LanguageState.SetLang: every `localStorage.setItem` is taken to succeed. The source swallows a failing write (full quota, private mode) in an empty `catch`, which leaves the slot as it was; that path is not modelled, so SaveThenLoad and PersistedThemeReloads hold only for writes that succeed.
- App.LoadIds, App.FiniteValues: stored ids are taken to be integers. `Number.isFinite` also keeps a fractional number such as 1.5, which would load, stay among the recents and count toward the cap of 12; the model has no such element.
- App.ShownCore, App.MatterLabelShape, ProjectSort.SortKey: strings are sequences of code points, while JavaScript's `.length`, `slice` and `<` work on UTF-16 code units; a title, type, location or client with a character outside the Basic Multilingual Plane gets a different room, cut (the source may split a surrogate pair) and order than the model gives.
- Text.Lower: `toLowerCase`/`lower()` are modelled for ASCII and the Latin-1 capitals only; other scripts are left unchanged.
- Text.Trim: the white space removed is a fixed list (space, tab, line feed, carriage return, vertical tab, form feed, no-break space, byte-order mark), not every Unicode space separator `trim` removes.
- TasksTable.RowsMeaning: `localeCompare` is read as code-point order of the strings; locale collation is not modelled.
- DbQueries: rows that tie on a SQL `ORDER BY` key come back in storage order; SQL leaves that order unspecified.
- The dnd-kit drag library: the board receives the dragged task id and the target column id as plain inputs.
- pydantic request validation: only the pagination bounds (422) are modelled; other malformed bodies and the text of 422 details are left out.
- SQLAlchemy sessions, relationship cascades and FastAPI plumbing; `main.py`'s `ensure_bg_color_column` start-up migration.
- Foreign keys are not enforced: the source never turns on SQLite's foreign-key checking, so a row may name a project that does not exist.
- Db.Database.UpdateTask, Db.Database.UpdateProject: an explicit null written to a NOT NULL column is modelled as the commit's 500 with nothing written; the database's own error text is not modelled.
- The schema-only Alembic migrations fc73fd318893 and b99ab0f91d48 (adding columns), with their `downgrade`s.
- preview_utils.py (thumbnail and text-preview extraction over file contents) is not part of this model.
- ClosingPack: the ZIP container, `BytesIO` and `StreamingResponse` are left out; the archive is the ordered list of its entries' names and texts.
- File contents on disk: the upload directory is a set of paths; the bytes written and `UploadFile`'s `seek`/`tell` are not modelled, the size is an input.
- `datetime.utcnow()` stamps on new rows and in the ICS `DTSTAMP` are parameters.
- CalendarIcs: the line folding of section 3.1 of RFC 5545 is not done by the code and so not by the model; long lines stay unfolded.
- Seed: the demo wording (client names, task titles, activity texts, file names) is a `SeedPlan` parameter rather than the literal tables.
- ProjectSort, CalendarView, TasksTable: the client sorts a fresh copy with `Array.prototype.sort`; the model sorts values, so aliasing and the in-place order of the copy are not captured.
- I18n: each language dictionary is held as three key groups (navigation, panels, overview) rather than one flat object; lookups read the group that holds the key.
- Formatting.ClientName: the client's name is printed as stored, with no "Surname, First" reordering; OverviewView has no project-number sort field.
- App.LookupProject: when two projects share an id the last one wins, as building the id map does in the source.
- GeneralOverview: the status filter is an exact string match and the text filter is not trimmed.
