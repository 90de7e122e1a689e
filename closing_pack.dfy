/**
 * The closing pack the backend builds for one matter: a ZIP archive of four
 * Markdown documents (project summary, notary agenda, conveyancing
 * checklist, open tasks) and a JSON manifest.  The archive is modelled as
 * the list of its entries, name and text, in the order they are written.
 */
module ClosingPack {
  import opened Common
  import opened Text
  import opened Dates
  import opened Entities
  import opened Grouping

  /** `md`: a level-one heading, a blank line, the body and a final newline. */
  function Md(title: string, body: string): string
  {
    "# " + title + "\n\n" + body + "\n"
  }

  /**
   * Reading a document back: the heading runs to the first newline, which
   * must be followed by a second one; the body runs to the final newline.
   */
  function ParseMd(doc: string): Option<(string, string)>
  {
    if |doc| < 5 || doc[..2] != "# " || doc[|doc| - 1] != '\n' then None
    else
      var i := IndexOf(doc, "\n", 2);
      if i < 0 || i + 3 > |doc| || doc[i + 1] != '\n' then None
      else Some((doc[2..i], doc[i + 2..|doc| - 1]))
  }

  /** A heading without a newline and any body are read back from the document. */
  lemma MdRoundTrip(title: string, body: string)
    requires '\n' !in title
    ensures ParseMd(Md(title, body)) == Some((title, body))
  {
    var doc := Md(title, body);
    var n := |title|;
    assert doc[..2] == "# ";
    assert doc[2 + n] == '\n' && doc[3 + n] == '\n';
    assert OccursAt(doc, "\n", 2 + n) by {
      assert doc[2 + n..3 + n] == "\n";
    }
    forall j | 2 <= j < 2 + n
      ensures !OccursAt(doc, "\n", j)
    {
      assert doc[j] == title[j - 2];
      assert doc[j..j + 1] == [doc[j]];
    }
    var i := IndexOf(doc, "\n", 2);
    assert i == 2 + n;
    assert doc[2..i] == title;
    assert doc[i + 2..|doc| - 1] == body;
  }

  /** One file of the archive. */
  datatype Entry = Entry(name: string, content: string)

  /**
   * What the route answers: a JSON body naming the error (with status 200),
   * or the archive as an attachment.
   */
  datatype Response =
    | ErrorBody(error: string)
    | ZipAttachment(filename: string, contentDisposition: string, entries: seq<Entry>)

  /** The archive files the manifest lists, in the order they are written. */
  const Includes: seq<string> := ["00_Project_Summary.md", "01_Notary_Agenda.md", "02_Conveyancing_Checklist.md", "03_Open_Tasks.md"]

  const ManifestName: string := "manifest.json"

  /** Python's `str()` of a nullable date column: ISO text, or "None". */
  function DateText(d: Option<int>): string
  {
    if d.Some? then IsoDate(d.value) else "None"
  }

  /** The client's name, or an em dash for a matter without a client. */
  function ClientName(p: Project): string
  {
    if p.client.Some? then p.client.value.name else "—"
  }

  /** The six lines of the summary body. */
  function SummaryFields(p: Project): seq<string>
  {
    ["**Matter:** " + p.title,
     "**Client:** " + ClientName(p),
     "**Type:** " + p.transactionType,
     "**Location:** " + p.location,
     "**Status:** " + p.status,
     "**Target close:** " + DateText(p.targetCloseDate)]
  }

  /** `00_Project_Summary.md`. */
  function Summary(p: Project): string
  {
    Md("Project summary", Lines(SummaryFields(p), "\n"))
  }

  /** The completion agenda, the same for every matter. */
  const AgendaItems: seq<string> := [
    "- Confirm notary appointment (Escritura) time & attendees",
    "- Confirm funds routing / completion statement approved",
    "- Confirm IDs/NIE and powers of attorney if applicable",
    "- Confirm taxes filing plan (ITP/AJD / Plusvalía)",
    "- Confirm post-completion: Land Registry submission + utilities/HOA notifications"]

  /** `01_Notary_Agenda.md`. */
  function Agenda(): string
  {
    Md("Notary agenda (Escritura)", Join(AgendaItems, "\n"))
  }

  /**
   * The summary holds one line per field in a fixed order, each newline
   * terminated, under the "Project summary" heading; the client line shows
   * the client's name, or an em dash when there is none.
   */
  lemma SummaryMeaning(p: Project)
    ensures |SummaryFields(p)| == 6
    ensures p.client.None? ==> SummaryFields(p)[1] == "**Client:** —"
    ensures p.client.Some? ==> SummaryFields(p)[1] == "**Client:** " + p.client.value.name
    ensures SummaryFields(p)[0] == "**Matter:** " + p.title
    ensures p.targetCloseDate.None? ==> SummaryFields(p)[5] == "**Target close:** None"
    ensures ParseMd(Summary(p)) == Some(("Project summary", Lines(SummaryFields(p), "\n")))
  {
    MdRoundTrip("Project summary", Lines(SummaryFields(p), "\n"));
  }

  // The conveyancing checklist export.

  /** "x" for a done item, a space otherwise. */
  function Box(done: bool): string
  {
    if done then "x" else " "
  }

  /** One checklist line: a ticked or empty box, the label and the due date. */
  function ItemLine(it: ChecklistItem): (r: string)
    ensures |r| >= 6 && r[..3] == "- [" && r[4..6] == "] "
    ensures r[3] == 'x' <==> it.isDone
    ensures r[3] == ' ' <==> !it.isDone
  {
    "- [" + Box(it.isDone) + "] " + it.itemLabel + " (due: " + DateText(it.dueDate) + ")"
  }

  function StageHeader(stage: string): (r: string)
    ensures |r| >= 3 && r[..3] == "## "
  {
    "## " + stage
  }

  /** The lines of one stage: its header, one line per item in order, and a blank line. */
  function Block(g: (string, seq<ChecklistItem>)): seq<string>
  {
    [StageHeader(g.0)] + Map(g.1, ItemLine) + [""]
  }

  lemma BlockShape(g: (string, seq<ChecklistItem>))
    ensures var b := Block(g);
      && |b| == |g.1| + 2 && b[0] == StageHeader(g.0) && b[|b| - 1] == ""
      && (forall j :: 0 < j < |b| - 1 ==> b[j] == ItemLine(g.1[j - 1]))
  {
    var items := Map(g.1, ItemLine);
    var b := [StageHeader(g.0)] + items + [""];
    assert forall j :: 0 < j < |b| - 1 ==> b[j] == items[j - 1];
  }

  /** The checklist lines: the blocks of the stages, in order of first appearance. */
  function ChecklistLines(checklist: seq<ChecklistItem>): seq<string>
  {
    Flatten(Map(Grouped(checklist, StageOf), Block))
  }

  const ChecklistHeading: string := "# Conveyancing checklist\n\n"

  /** `02_Conveyancing_Checklist.md`: the heading, then the lines joined by newlines. */
  function ChecklistDoc(checklist: seq<ChecklistItem>): string
  {
    ChecklistHeading + Join(ChecklistLines(checklist), "\n")
  }

  /** The inner loop: one stage's header, its items' lines, and the closing blank line. */
  method AppendBlock(lines: seq<string>, stage: string, items: seq<ChecklistItem>) returns (out: seq<string>)
    ensures out == lines + Block((stage, items))
  {
    var head := lines + [StageHeader(stage)];
    out := head;
    var j := 0;
    while j < |items|
      invariant 0 <= j <= |items|
      invariant out == head + Map(items[..j], ItemLine)
    {
      MapSnoc(items, j, ItemLine);
      out := out + [ItemLine(items[j])];
      j := j + 1;
    }
    assert items[..j] == items;
    out := out + [""];
    BlockParts3(lines, stage, items);
  }

  lemma BlockParts3(lines: seq<string>, stage: string, items: seq<ChecklistItem>)
    ensures lines + [StageHeader(stage)] + Map(items, ItemLine) + [""] == lines + Block((stage, items))
  {
    var h, m := [StageHeader(stage)], Map(items, ItemLine);
    assert Block((stage, items)) == h + m + [""];
    AppendTail(lines, h, m);
    AppendTail(lines, h + m, [""]);
  }

  /** The loops of the export: fill `by_stage`, then write each stage's block. */
  method ExportChecklist(checklist: seq<ChecklistItem>) returns (doc: string)
    ensures doc == ChecklistDoc(checklist)
  {
    var byStage := GroupInOrder(checklist, StageOf);
    var lines: seq<string> := [];
    var i := 0;
    while i < |byStage|
      invariant 0 <= i <= |byStage|
      invariant lines == Flatten(Map(byStage[..i], Block))
    {
      FlattenMapSnoc(byStage, i, Block);
      lines := AppendBlock(lines, byStage[i].0, byStage[i].1);
      i := i + 1;
    }
    assert byStage[..i] == byStage;
    doc := ChecklistHeading + Join(lines, "\n");
  }

  predicate IsHeaderLine(l: string)
  {
    |l| >= 3 && l[..3] == "## "
  }

  predicate IsItemLine(l: string)
  {
    |l| >= 3 && l[..3] == "- ["
  }

  predicate IsBlank(l: string)
  {
    l == ""
  }

  function GroupHeader(g: (string, seq<ChecklistItem>)): string
  {
    StageHeader(g.0)
  }

  function Members(g: (string, seq<ChecklistItem>)): seq<ChecklistItem>
  {
    g.1
  }

  /** The three kinds of line inside one block. */
  lemma BlockParts(g: (string, seq<ChecklistItem>))
    ensures Filter(Block(g), IsHeaderLine) == [GroupHeader(g)]
    ensures Filter(Block(g), IsBlank) == [""]
    ensures Filter(Block(g), IsItemLine) == Map(g.1, ItemLine)
  {
    var items := Map(g.1, ItemLine);
    assert Block(g) == [StageHeader(g.0)] + items + [""];
    FilterAppend([StageHeader(g.0)] + items, [""], IsHeaderLine);
    FilterAppend([StageHeader(g.0)], items, IsHeaderLine);
    FilterNone(items, IsHeaderLine);
    FilterAppend([StageHeader(g.0)] + items, [""], IsBlank);
    FilterAppend([StageHeader(g.0)], items, IsBlank);
    FilterNone(items, IsBlank);
    FilterAppend([StageHeader(g.0)] + items, [""], IsItemLine);
    FilterAppend([StageHeader(g.0)], items, IsItemLine);
    FilterAll(items, IsItemLine);
  }

  /** Over the whole export: one header per group in group order, one blank per group, the items in group order. */
  lemma {:induction false} BlocksParts(gs: seq<(string, seq<ChecklistItem>)>)
    ensures Filter(Flatten(Map(gs, Block)), IsHeaderLine) == Map(gs, GroupHeader)
    ensures Count(Flatten(Map(gs, Block)), IsBlank) == |gs|
    ensures Filter(Flatten(Map(gs, Block)), IsItemLine) == Map(Flatten(Map(gs, Members)), ItemLine)
  {
    if gs != [] {
      var rest := Flatten(Map(gs[1..], Block));
      BlocksParts(gs[1..]);
      FlattenMapCons(gs, Block);
      FlattenMapCons(gs, Members);
      BlockParts(gs[0]);
      FilterAppend(Block(gs[0]), rest, IsHeaderLine);
      FilterAppend(Block(gs[0]), rest, IsBlank);
      FilterAppend(Block(gs[0]), rest, IsItemLine);
      MapAppend(gs[0].1, Flatten(Map(gs[1..], Members)), ItemLine);
    }
  }

  /**
   * Each group is closed by a blank line: every header but the first comes
   * straight after a blank line, the export starts with a header and ends
   * with a blank line.
   */
  lemma {:induction false} BlocksSeparated(gs: seq<(string, seq<ChecklistItem>)>)
    ensures var ls := Flatten(Map(gs, Block));
      && (forall k :: 0 < k < |ls| && IsHeaderLine(ls[k]) ==> ls[k - 1] == "")
      && (gs != [] ==> |ls| > 0 && IsHeaderLine(ls[0]) && ls[|ls| - 1] == "")
  {
    if gs != [] {
      var b := Block(gs[0]);
      var rest := Flatten(Map(gs[1..], Block));
      BlocksSeparated(gs[1..]);
      FlattenMapCons(gs, Block);
      var ls := b + rest;
      BlockShape(gs[0]);
      forall k | 0 < k < |ls| && IsHeaderLine(ls[k])
        ensures ls[k - 1] == ""
      {
        if k > |b| {
          assert ls[k] == rest[k - |b|] && ls[k - 1] == rest[k - |b| - 1];
        }
      }
      if gs[1..] != [] {
        assert ls[|ls| - 1] == rest[|rest| - 1];
      }
    }
  }

  /**
   * The checklist export's structure: one "## stage" header per stage, in
   * order of first appearance; one blank line per stage, closing each
   * group; nothing for an empty checklist but the heading.
   */
  lemma ChecklistExportMeaning(checklist: seq<ChecklistItem>)
    ensures Filter(ChecklistLines(checklist), IsHeaderLine) == Map(FirstOccurrences(checklist, StageOf), StageHeader)
    ensures Count(ChecklistLines(checklist), IsBlank) == |FirstOccurrences(checklist, StageOf)|
    ensures var ls := ChecklistLines(checklist);
      && (forall k :: 0 < k < |ls| && IsHeaderLine(ls[k]) ==> ls[k - 1] == "")
      && (checklist != [] ==> |ls| > 0 && IsHeaderLine(ls[0]) && ls[|ls| - 1] == "")
    ensures checklist == [] ==> ChecklistDoc(checklist) == ChecklistHeading
  {
    var gs := Grouped(checklist, StageOf);
    var ks := FirstOccurrences(checklist, StageOf);
    BlocksParts(gs);
    BlocksSeparated(gs);
    assert Map(gs, GroupHeader) == Map(ks, StageHeader);
    if checklist != [] {
      FirstOccurrencesMembers(checklist, StageOf);
      assert StageOf(checklist[0]) in ks;
    }
  }

  /** Every item is listed exactly once: as many item lines as items, each item's own line among them. */
  lemma ChecklistItemsListed(checklist: seq<ChecklistItem>)
    ensures |Filter(ChecklistLines(checklist), IsItemLine)| == |checklist|
    ensures forall it :: it in checklist ==> ItemLine(it) in ChecklistLines(checklist)
  {
    var flat := Flatten(Groups(FirstOccurrences(checklist, StageOf), checklist, StageOf));
    ItemLinesInGroupOrder(checklist);
    GroupsCover(checklist, StageOf);
    ListedOnce(ChecklistLines(checklist), IsItemLine, flat, checklist, ItemLine);
  }

  /** The item lines are the items' lines, stage group by stage group. */
  lemma ItemLinesInGroupOrder(checklist: seq<ChecklistItem>)
    ensures Filter(ChecklistLines(checklist), IsItemLine)
      == Map(Flatten(Groups(FirstOccurrences(checklist, StageOf), checklist, StageOf)), ItemLine)
  {
    var gs := Grouped(checklist, StageOf);
    BlocksParts(gs);
    assert Map(gs, Members) == Groups(FirstOccurrences(checklist, StageOf), checklist, StageOf);
  }

  /** Lines selected by `p` that are the images of a rearrangement of `s` hold one image per element. */
  lemma ListedOnce<T>(ls: seq<string>, p: string -> bool, flat: seq<T>, s: seq<T>, f: T -> string)
    requires Filter(ls, p) == Map(flat, f)
    requires |flat| == |s| && forall x :: x in s ==> x in flat
    ensures |Filter(ls, p)| == |s|
    ensures forall x :: x in s ==> f(x) in ls
  {
    FilterMembers(ls, p);
    forall x | x in s
      ensures f(x) in ls
    {
      var n :| 0 <= n < |flat| && flat[n] == x;
      assert Filter(ls, p)[n] == f(x);
    }
  }

  // The open-tasks table.

  /** Every status but "Done" counts as open. */
  predicate IsOpen(t: Task)
  {
    t.status != "Done"
  }

  predicate IsClosed(t: Task)
  {
    t.status == "Done"
  }

  const TableHead: seq<string> := ["| Task | Assignee | Due | Priority |", "|---|---|---|---|"]

  function TaskRow(t: Task): string
  {
    "| " + t.title + " | " + t.assignee + " | " + DateText(t.dueDate) + " | " + t.priority + " |"
  }

  /** `tlines`: the two header lines, then a row per open task in query order. */
  function OpenTaskLines(tasks: seq<Task>): seq<string>
  {
    TableHead + Map(Filter(tasks, IsOpen), TaskRow)
  }

  /** `03_Open_Tasks.md`. */
  function OpenTasksDoc(tasks: seq<Task>): string
  {
    "# Open tasks\n\n" + Join(OpenTaskLines(tasks), "\n") + "\n"
  }

  /** The loop that appends the rows. */
  method ExportOpenTasks(tasks: seq<Task>) returns (doc: string)
    ensures doc == OpenTasksDoc(tasks)
  {
    var openTasks := Filter(tasks, IsOpen);
    var tlines := TableHead;
    for i := 0 to |openTasks|
      invariant tlines == TableHead + Map(openTasks[..i], TaskRow)
    {
      MapSnoc(openTasks, i, TaskRow);
      tlines := tlines + [TaskRow(openTasks[i])];
    }
    assert openTasks[..|openTasks|] == openTasks;
    doc := "# Open tasks\n\n" + Join(tlines, "\n") + "\n";
  }

  /**
   * The table: the two header lines, then one row per task whose status is
   * not "Done", in query order, so as many rows as tasks less the done ones.
   */
  lemma OpenTasksMeaning(tasks: seq<Task>)
    ensures var ls := OpenTaskLines(tasks);
      && ls[..2] == TableHead
      && |ls| == 2 + |tasks| - Count(tasks, IsClosed)
      && (forall i :: 0 <= i < |Filter(tasks, IsOpen)| ==> ls[2 + i] == TaskRow(Filter(tasks, IsOpen)[i]))
      && (forall t :: t in tasks && t.status != "Done" ==> TaskRow(t) in ls)
    ensures SubsequenceOf(Filter(tasks, IsOpen), tasks)
  {
    var ls := OpenTaskLines(tasks);
    var open := Filter(tasks, IsOpen);
    CountSplit(tasks, IsOpen, IsClosed);
    FilterIsSubsequence(tasks, IsOpen);
    FilterMembers(tasks, IsOpen);
    HeadThenRows(TableHead, open, TaskRow);
    forall t | t in tasks && t.status != "Done"
      ensures TaskRow(t) in ls
    {
      assert IsOpen(t) && t in open;
      ImageListed(open, TaskRow, t);
    }
  }

  /** The line of a listed element is among the lines. */
  lemma ImageListed<T>(xs: seq<T>, f: T -> string, x: T)
    requires x in xs
    ensures f(x) in Map(xs, f)
  {
    var n :| 0 <= n < |xs| && xs[n] == x;
    assert Map(xs, f)[n] == f(x);
  }

  /** Header lines followed by one line per element: where each element's line sits. */
  lemma HeadThenRows<T>(head: seq<string>, xs: seq<T>, f: T -> string)
    ensures |head + Map(xs, f)| == |head| + |xs|
    ensures (head + Map(xs, f))[..|head|] == head
    ensures forall i :: 0 <= i < |xs| ==> (head + Map(xs, f))[|head| + i] == f(xs[i])
  {
  }

  /** Every line of the open-tasks document, the last row included, ends with a newline. */
  lemma OpenTasksDocLines(tasks: seq<Task>)
    ensures OpenTasksDoc(tasks) == "# Open tasks\n\n" + Lines(OpenTaskLines(tasks), "\n")
  {
    JoinThenNewline(OpenTaskLines(tasks), "\n");
  }

  // The manifest.

  /** `title.replace('"', '\\"')`: each double quote gets a backslash before it; nothing else changes. */
  function EscapeQuotes(title: string): string
  {
    ReplaceAll(title, "\"", "\\\"")
  }

  /** A file name as a JSON string. */
  function JsonString(s: string): string
  {
    "\"" + s + "\""
  }

  /** `manifest.json`: the stamp, the project id, the escaped title and the included files. */
  function Manifest(generatedAt: string, projectId: int, title: string): string
  {
    ManifestFields(generatedAt, projectId, title) + IncludesField()
  }

  /** The manifest up to its last field. */
  function ManifestFields(generatedAt: string, projectId: int, title: string): string
  {
    "{\n  \"generated_at\": \"" + generatedAt + "Z\",\n  \"project_id\": " + IntToString(projectId)
    + ",\n  \"title\": \"" + EscapeQuotes(title) + "\",\n  "
  }

  /** Drops the backslash of each backslash-quote pair, reading left to right. */
  function UnescapeQuotes(s: string): string
  {
    if |s| >= 2 && s[0] == '\\' && s[1] == '"' then "\"" + UnescapeQuotes(s[2..])
    else if s == [] then []
    else [s[0]] + UnescapeQuotes(s[1..])
  }

  predicate IsQuote(c: char)
  {
    c == '"'
  }

  predicate IsBackslash(c: char)
  {
    c == '\\'
  }

  lemma EscapeQuotesChars(t: string)
    ensures EscapeQuotes(t) == ReplaceChar(t, '"', "\\\"")
  {
    ReplaceAllSingle(t, '"', "\\\"");
  }

  /** The escaped text starts with the first character, or with a backslash when that is a quote. */
  lemma EscapeQuotesCons(t: string)
    requires t != []
    ensures EscapeQuotes(t) == (if t[0] == '"' then "\\\"" else [t[0]]) + EscapeQuotes(t[1..])
  {
    EscapeQuotesChars(t);
    EscapeQuotesChars(t[1..]);
  }

  /** The escaping is undone by dropping the added backslashes: the title is recovered, backslashes and all. */
  lemma {:induction false} EscapeQuotesRoundTrip(t: string)
    ensures UnescapeQuotes(EscapeQuotes(t)) == t
    decreases |t|
  {
    if t != [] {
      EscapeQuotesCons(t);
      EscapeQuotesRoundTrip(t[1..]);
      var rest := EscapeQuotes(t[1..]);
      if t[0] == '"' {
        assert ("\\\"" + rest)[2..] == rest;
      } else {
        var s := [t[0]] + rest;
        assert s[1..] == rest;
        if t[0] == '\\' && |s| >= 2 {
          EscapeQuotesCons(t[1..]);
          assert s[1] == rest[0] != '"';
        }
      }
    }
  }

  /**
   * Every quote of the escaped title has a backslash before it, and the
   * backslashes are those of the title plus one per quote.
   */
  lemma {:induction false} EscapeQuotesMeaning(t: string)
    ensures var e := EscapeQuotes(t);
      && (forall i :: 0 <= i < |e| && e[i] == '"' ==> i > 0 && e[i - 1] == '\\')
      && Count(e, IsBackslash) == Count(t, IsBackslash) + Count(t, IsQuote)
      && Count(e, IsQuote) == Count(t, IsQuote)
    decreases |t|
  {
    if t != [] {
      EscapeQuotesCons(t);
      EscapeQuotesMeaning(t[1..]);
      var rest := EscapeQuotes(t[1..]);
      var head: string := if t[0] == '"' then "\\\"" else [t[0]];
      var e := head + rest;
      FilterAppend(head, rest, IsBackslash);
      FilterAppend(head, rest, IsQuote);
      forall i | 0 <= i < |e| && e[i] == '"'
        ensures i > 0 && e[i - 1] == '\\'
      {
        if i >= |head| {
          assert e[i] == rest[i - |head|];
          if i > |head| {
            assert e[i - 1] == rest[i - |head| - 1];
          } else {
            assert false;
          }
        }
      }
    }
  }

  /** The four document names differ from each other and from the manifest's own name. */
  lemma IncludesDistinct()
    ensures |Includes| == 4
    ensures forall i, j :: 0 <= i < j < 4 ==> Includes[i] != Includes[j]
    ensures ManifestName !in Includes
  {
    assert |Includes[0]| == 21 && |Includes[1]| == 19 && |Includes[2]| == 28 && |Includes[3]| == 16;
    assert |ManifestName| == 13;
  }

  /** The last field: the four names as JSON strings, comma separated. */
  function IncludesField(): string
  {
    "\"includes\": [" + Join(Map(Includes, JsonString), ",") + "]\n}"
  }

  /** The attachment's file name. */
  function ArchiveName(projectId: int): string
  {
    "closing_pack_project_" + IntToString(projectId) + ".zip"
  }

  /** Distinct projects get distinct archive names. */
  lemma ArchiveNameInjective(a: int, b: int)
    requires ArchiveName(a) == ArchiveName(b)
    ensures a == b
  {
    var p := "closing_pack_project_";
    var sa, sb := IntToString(a), IntToString(b);
    assert ArchiveName(a)[|p|..|ArchiveName(a)| - 4] == sa;
    assert ArchiveName(b)[|p|..|ArchiveName(b)| - 4] == sb;
    IntToStringInjective(a, b);
  }

  /** `db.get(Project, project_id)`: the row with that primary key, if any. */
  function FindProject(projects: seq<Project>, projectId: int): (r: Option<Project>)
    ensures r.Some? ==> r.value in projects && r.value.id == projectId
    ensures r.None? <==> forall p :: p in projects ==> p.id != projectId
  {
    if projects == [] then None
    else if projects[0].id == projectId then Some(projects[0])
    else FindProject(projects[1..], projectId)
  }

  /** The five entries of the archive, in the order they are written. */
  function PackEntries(summary: string, agenda: string, checklistDoc: string, openTasksDoc: string, manifest: string): seq<Entry>
  {
    [Entry(Includes[0], summary),
     Entry(Includes[1], agenda),
     Entry(Includes[2], checklistDoc),
     Entry(Includes[3], openTasksDoc),
     Entry(ManifestName, manifest)]
  }

  /** What `generate` answers for the stored tables; the stamp is the moment of the request. */
  function PackResponse(projectId: int, projects: seq<Project>, tasks: seq<Task>, checklist: seq<ChecklistItem>,
    generatedAt: string): Response
  {
    match FindProject(projects, projectId)
    case None => ErrorBody("Project not found")
    case Some(p) =>
      var name := ArchiveName(projectId);
      ZipAttachment(name, "attachment; filename=\"" + name + "\"",
        PackEntries(Summary(p), Agenda(), ChecklistDoc(Filter(checklist, ChecklistOfProject(projectId))),
          OpenTasksDoc(Filter(tasks, TaskOfProject(projectId))), Manifest(generatedAt, p.id, p.title)))
  }

  /** `generate`: look the project up, query its tasks and items, write the five entries. */
  method Generate(projectId: int, projects: seq<Project>, tasks: seq<Task>, checklist: seq<ChecklistItem>,
    generatedAt: string) returns (r: Response)
    ensures r == PackResponse(projectId, projects, tasks, checklist, generatedAt)
  {
    var found := FindProject(projects, projectId);
    if found.None? {
      return ErrorBody("Project not found");
    }
    var p := found.value;
    var projectTasks := Filter(tasks, TaskOfProject(projectId));
    var items := Filter(checklist, ChecklistOfProject(projectId));
    var summary := Summary(p);
    var agenda := Agenda();
    var checklistDoc := ExportChecklist(items);
    var openTasksDoc := ExportOpenTasks(projectTasks);
    var manifest := Manifest(generatedAt, p.id, p.title);
    var entries := PackEntries(summary, agenda, checklistDoc, openTasksDoc, manifest);
    var filename := ArchiveName(projectId);
    r := ZipAttachment(filename, "attachment; filename=\"" + filename + "\"", entries);
  }

  /**
   * An unknown project gets the error body and no archive; a known one an
   * archive named after its id, holding the four documents the manifest
   * lists and then the manifest, each built from that project's own rows.
   */
  lemma PackMeaning(projectId: int, projects: seq<Project>, tasks: seq<Task>, checklist: seq<ChecklistItem>,
    generatedAt: string)
    ensures var r := PackResponse(projectId, projects, tasks, checklist, generatedAt);
      && (r.ErrorBody? <==> forall p :: p in projects ==> p.id != projectId)
      && (r.ErrorBody? ==> r.error == "Project not found")
      && (r.ZipAttachment? ==>
        var p := FindProject(projects, projectId).value;
        && p in projects && p.id == projectId
        && r.filename == ArchiveName(projectId)
        && |r.entries| == 5
        && (forall i :: 0 <= i < 4 ==> r.entries[i].name == Includes[i])
        && r.entries[4].name == ManifestName
        && r.entries[0].content == Summary(p)
        && r.entries[2].content == ChecklistDoc(Filter(checklist, ChecklistOfProject(projectId)))
        && r.entries[3].content == OpenTasksDoc(Filter(tasks, TaskOfProject(projectId)))
        && r.entries[4].content == Manifest(generatedAt, projectId, p.title))
  {
    var found := FindProject(projects, projectId);
    if found.Some? {
      var r := PackResponse(projectId, projects, tasks, checklist, generatedAt);
      var ownTasks, ownItems := Filter(tasks, TaskOfProject(projectId)), Filter(checklist, ChecklistOfProject(projectId));
      var p := found.value;
      assert r.entries == PackEntries(Summary(p), Agenda(), ChecklistDoc(ownItems), OpenTasksDoc(ownTasks),
        Manifest(generatedAt, p.id, p.title));
      EntriesLayout(Summary(p), Agenda(), ChecklistDoc(ownItems), OpenTasksDoc(ownTasks), Manifest(generatedAt, p.id, p.title));
    }
  }

  /** Each text lands in its own entry, under the name the manifest lists for it. */
  lemma EntriesLayout(summary: string, agenda: string, checklistDoc: string, openTasksDoc: string, manifest: string)
    ensures var e := PackEntries(summary, agenda, checklistDoc, openTasksDoc, manifest);
      && |e| == 5
      && (forall i :: 0 <= i < 4 ==> e[i].name == Includes[i])
      && e[4].name == ManifestName
      && e[0].content == summary && e[1].content == agenda && e[2].content == checklistDoc
      && e[3].content == openTasksDoc && e[4].content == manifest
  {
    var e := PackEntries(summary, agenda, checklistDoc, openTasksDoc, manifest);
    assert e[0].name == Includes[0] && e[1].name == Includes[1];
    assert e[2].name == Includes[2] && e[3].name == Includes[3];
  }
}
