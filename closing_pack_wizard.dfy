/**
 * The closing-pack readiness gate of the client's wizard: open and overdue
 * tasks, a per-stage done/total tally of the checklist, the list of stages a
 * step still lacks, and the `ready` verdict.
 */
module ClosingPackWizard {
  import opened Common
  import opened Text
  import opened Entities
  import opened Grouping

  /** The wizard's steps; it opens on `Notary`. */
  datatype Step = Notary | Taxes | Registry | Utilities

  const InitialStep: Step := Notary

  /** The status the wizard takes to mean "done". */
  const DoneStatus: string := "Hecho"

  /** A task is overdue when it has a due date strictly before today. */
  predicate IsOverdue(due: Option<int>, today: int)
  {
    match due
    case None => false
    case Some(d) => d < today
  }

  lemma UndatedNeverOverdue(today: int)
    ensures !IsOverdue(None, today)
  {
  }

  lemma DueTodayNotOverdue(today: int)
    ensures !IsOverdue(Some(today), today)
    ensures IsOverdue(Some(today - 1), today)
  {
  }

  function IsOpen(t: Task): bool
  {
    t.status != DoneStatus
  }

  function OverdueAt(today: int): Task -> bool
  {
    (t: Task) => IsOverdue(t.dueDate, today)
  }

  function OpenTasks(tasks: seq<Task>): seq<Task>
  {
    Filter(tasks, IsOpen)
  }

  function OverdueTasks(tasks: seq<Task>, today: int): seq<Task>
  {
    Filter(OpenTasks(tasks), OverdueAt(today))
  }

  /** Overdue tasks are open tasks, kept in their order. */
  lemma OverdueAreOpen(tasks: seq<Task>, today: int)
    ensures SubsequenceOf(OverdueTasks(tasks, today), OpenTasks(tasks))
    ensures forall i :: 0 <= i < |OverdueTasks(tasks, today)| ==>
      OverdueTasks(tasks, today)[i].status != "Hecho"
      && IsOverdue(OverdueTasks(tasks, today)[i].dueDate, today)
  {
    FilterIsSubsequence(OpenTasks(tasks), OverdueAt(today));
    FilterMembers(OpenTasks(tasks), OverdueAt(today));
    FilterMembers(tasks, IsOpen);
  }

  /** Done and total checklist items of one stage. */
  datatype Tally = Tally(done: nat, total: nat)

  function DoneInStage(s: string): ChecklistItem -> bool
  {
    (c: ChecklistItem) => c.stage == s && c.isDone
  }

  function StageTally(checklist: seq<ChecklistItem>, s: string): Tally
  {
    Tally(Count(checklist, DoneInStage(s)), Count(checklist, HasKey(s, StageOf)))
  }

  /** The tally of every stage that occurs in the checklist. */
  function StageMap(checklist: seq<ChecklistItem>): map<string, Tally>
  {
    map s | s in FirstOccurrences(checklist, StageOf) :: StageTally(checklist, s)
  }

  /** `v` after counting item `c` into it. */
  function Bump(v: Tally, c: ChecklistItem): Tally
  {
    Tally(v.done + (if c.isDone then 1 else 0), v.total + 1)
  }

  /** The counts the `byStage` loop builds, item by item. */
  function CountedStages(checklist: seq<ChecklistItem>): map<string, Tally>
  {
    if checklist == [] then map[]
    else
      var m := CountedStages(checklist[..|checklist| - 1]);
      var c := checklist[|checklist| - 1];
      m[c.stage := Bump(if c.stage in m then m[c.stage] else Tally(0, 0), c)]
  }

  /** Counting item by item gives every stage its tally. */
  lemma {:induction false} CountedStagesIsStageMap(checklist: seq<ChecklistItem>)
    ensures CountedStages(checklist) == StageMap(checklist)
    decreases |checklist|
  {
    if checklist == [] {
      assert StageMap(checklist) == map[];
    } else {
      var pre := checklist[..|checklist| - 1];
      var c := checklist[|checklist| - 1];
      CountedStagesIsStageMap(pre);
      assert checklist == pre + [c];
      StageMapSnoc(pre, c);
    }
  }

  /** The `byStage` loop: one pass over the checklist, counting per stage. */
  method ByStage(checklist: seq<ChecklistItem>) returns (m: map<string, Tally>)
    ensures m == StageMap(checklist)
  {
    m := map[];
    var i := 0;
    while i < |checklist|
      invariant 0 <= i <= |checklist|
      invariant m == CountedStages(checklist[..i])
    {
      var c := checklist[i];
      var v := if c.stage in m then m[c.stage] else Tally(0, 0);
      v := v.(total := v.total + 1);
      if c.isDone {
        v := v.(done := v.done + 1);
      }
      assert checklist[..i + 1][..i] == checklist[..i];
      m := m[c.stage := v];
      i := i + 1;
    }
    assert checklist[..|checklist|] == checklist;
    CountedStagesIsStageMap(checklist);
  }

  lemma TallySnoc(pre: seq<ChecklistItem>, c: ChecklistItem, s: string)
    ensures StageTally(pre + [c], s) == if s == c.stage then Bump(StageTally(pre, s), c) else StageTally(pre, s)
  {
    FilterAppend(pre, [c], HasKey(s, StageOf));
    FilterAppend(pre, [c], DoneInStage(s));
    assert StageOf(c) == c.stage;
    FilterSingle(c, HasKey(s, StageOf));
    FilterSingle(c, DoneInStage(s));
  }

  /** Counting one more item changes only the tally of its stage. */
  lemma StageMapSnoc(pre: seq<ChecklistItem>, c: ChecklistItem)
    ensures StageMap(pre + [c])
      == StageMap(pre)[c.stage := Bump(if c.stage in StageMap(pre) then StageMap(pre)[c.stage] else Tally(0, 0), c)]
  {
    var a := StageMap(pre + [c]);
    var b := StageMap(pre)[c.stage := Bump(if c.stage in StageMap(pre) then StageMap(pre)[c.stage] else Tally(0, 0), c)];
    StageKeysSnoc(pre, c);
    forall s | s in a
      ensures a[s] == b[s]
    {
      StageValueSnoc(pre, c, s);
    }
    SameEntries(a, b);
  }

  /** Two maps with the same keys and the same value at every key are equal. */
  lemma SameEntries<K, V>(a: map<K, V>, b: map<K, V>)
    requires a.Keys == b.Keys && forall k :: k in a ==> a[k] == b[k]
    ensures a == b
  {
  }

  /** The tally of each counted stage after one more item. */
  lemma StageValueSnoc(pre: seq<ChecklistItem>, c: ChecklistItem, s: string)
    requires s in StageMap(pre + [c])
    ensures StageMap(pre + [c])[s] ==
      if s != c.stage then StageMap(pre)[s]
      else Bump(if s in StageMap(pre) then StageMap(pre)[s] else Tally(0, 0), c)
  {
    StageKeysSnoc(pre, c);
    TallySnoc(pre, c, s);
    if s == c.stage && s !in StageMap(pre) {
      TallyOfAbsent(pre, s);
    }
  }

  /** Counting one more item adds its stage to the stages counted. */
  lemma StageKeysSnoc(pre: seq<ChecklistItem>, c: ChecklistItem)
    ensures StageMap(pre + [c]).Keys == StageMap(pre).Keys + {c.stage}
  {
    assert (pre + [c])[..|pre|] == pre;
    assert StageOf(c) == c.stage;
    var ks := FirstOccurrences(pre, StageOf);
    assert FirstOccurrences(pre + [c], StageOf) == if c.stage in ks then ks else ks + [c.stage];
  }

  /** A stage that does not occur has nothing counted. */
  lemma TallyOfAbsent(checklist: seq<ChecklistItem>, s: string)
    requires s !in FirstOccurrences(checklist, StageOf)
    ensures StageTally(checklist, s) == Tally(0, 0)
  {
    FirstOccurrencesMembers(checklist, StageOf);
    assert forall i :: 0 <= i < |checklist| ==> !HasKey(s, StageOf)(checklist[i]);
    FilterNone(checklist, HasKey(s, StageOf));
    FilterNone(checklist, DoneInStage(s));
  }

  /** Every tallied stage has at least one item, and no more done items than items. */
  lemma {:induction false} TallyBounds(checklist: seq<ChecklistItem>, s: string)
    requires s in StageMap(checklist)
    ensures 1 <= StageMap(checklist)[s].total
    ensures StageMap(checklist)[s].done <= StageMap(checklist)[s].total
  {
    FirstOccurrencesMembers(checklist, StageOf);
    FilterMembers(checklist, HasKey(s, StageOf));
    var i :| 0 <= i < |checklist| && StageOf(checklist[i]) == s;
    assert HasKey(s, StageOf)(checklist[i]);
    assert checklist[i] in Filter(checklist, HasKey(s, StageOf));
    forall x | DoneInStage(s)(x)
      ensures HasKey(s, StageOf)(x)
    {
      assert StageOf(x) == x.stage;
    }
    CountMono(checklist, DoneInStage(s), HasKey(s, StageOf));
  }

  function SumTotals(ks: seq<string>, m: map<string, Tally>): nat
  {
    if ks == [] then 0 else (if ks[0] in m then m[ks[0]].total else 0) + SumTotals(ks[1..], m)
  }

  lemma {:induction false} SumTotalsIsFlattenLength(ks: seq<string>, checklist: seq<ChecklistItem>)
    requires forall k :: k in ks ==> k in StageMap(checklist)
    ensures SumTotals(ks, StageMap(checklist)) == |Flatten(Groups(ks, checklist, StageOf))|
  {
    if ks != [] {
      SumTotalsIsFlattenLength(ks[1..], checklist);
    }
  }

  /** The stage totals add up to the length of the checklist. */
  lemma TotalsSumToLength(checklist: seq<ChecklistItem>)
    ensures SumTotals(FirstOccurrences(checklist, StageOf), StageMap(checklist)) == |checklist|
  {
    var ks := FirstOccurrences(checklist, StageOf);
    SumTotalsIsFlattenLength(ks, checklist);
    GroupsPartition(checklist, StageOf);
    assert |multiset(Flatten(Groups(ks, checklist, StageOf)))| == |multiset(checklist)|;
  }

  /** Stages each step requires. */
  function Need(step: Step): (r: seq<string>)
  {
    match step
    case Notary => ["Intake", "Contracts", "Notary"]
    case Taxes => ["Closing"]
    case Registry => ["Registry"]
    case Utilities => ["Registry"]
  }

  lemma RegistryAndUtilitiesAgree()
    ensures Need(Registry) == Need(Utilities)
  {
  }

  /** `Math.max(1, Math.ceil(total * 0.6))`, as the integer ceiling of 3·total/5. */
  function Threshold(total: nat): (r: nat)
    ensures r >= 1
    ensures 5 * r >= 3 * total
    ensures total > 0 ==> 5 * (r - 1) < 3 * total
  {
    var c := (3 * total + 4) / 5;
    if c < 1 then 1 else c
  }

  /** A required stage present in the tally that has too few done items. */
  function IsShort(m: map<string, Tally>): string -> bool
  {
    s => s in m && m[s].done < Threshold(m[s].total)
  }

  function ShortLine(m: map<string, Tally>): string -> string
  {
    s => if s in m then s + ": " + NatToString(m[s].done) + "/" + NatToString(m[s].total) else s
  }

  function OverdueLine(n: nat): string
  {
    NatToString(n) + " overdue task(s)"
  }

  /** The `missing` list: the overdue summary, then each short required stage, at most 8 entries. */
  function MissingList(step: Step, m: map<string, Tally>, overdueCount: nat): seq<string>
  {
    Take((if overdueCount > 0 then [OverdueLine(overdueCount)] else [])
         + Map(Filter(Need(step), IsShort(m)), ShortLine(m)), 8)
  }

  /** The `missing` list: the lines of the short stages, then the overdue line put in front. */
  method Missing(step: Step, m: map<string, Tally>, overdueCount: nat) returns (out: seq<string>)
    ensures out == MissingList(step, m, overdueCount)
  {
    out := ShortLines(Need(step), m);
    if overdueCount > 0 {
      out := [OverdueLine(overdueCount)] + out;
    }
    out := Take(out, 8);
  }

  /** The `missing` loop: one line per required stage that is in the tally and below the threshold. */
  method ShortLines(need: seq<string>, m: map<string, Tally>) returns (out: seq<string>)
    ensures out == Map(Filter(need, IsShort(m)), ShortLine(m))
  {
    out := [];
    var i := 0;
    while i < |need|
      invariant 0 <= i <= |need|
      invariant out == Map(Filter(need[..i], IsShort(m)), ShortLine(m))
    {
      var s := need[i];
      assert need[..i + 1] == need[..i] + [s];
      ShortLinesSnoc(need[..i], s, m);
      if s in m {
        var v := m[s];
        var threshold := Threshold(v.total);
        if v.done < threshold {
          out := out + [s + ": " + NatToString(v.done) + "/" + NatToString(v.total)];
        }
      }
      i := i + 1;
    }
    assert need[..|need|] == need;
  }

  lemma ShortLinesSnoc(pre: seq<string>, s: string, m: map<string, Tally>)
    ensures Map(Filter(pre + [s], IsShort(m)), ShortLine(m))
      == Map(Filter(pre, IsShort(m)), ShortLine(m))
         + (if s in m && m[s].done < Threshold(m[s].total)
            then [s + ": " + NatToString(m[s].done) + "/" + NatToString(m[s].total)] else [])
  {
    FilterAppend(pre, [s], IsShort(m));
    FilterSingle(s, IsShort(m));
    MapAppend(Filter(pre, IsShort(m)), Filter([s], IsShort(m)), ShortLine(m));
    assert Map([s], ShortLine(m)) == [ShortLine(m)(s)];
  }

  /** A required stage yields a line iff it is in the tally and below the threshold; absent stages yield nothing. */
  lemma ShortStages(step: Step, m: map<string, Tally>, s: string)
    ensures s in Filter(Need(step), IsShort(m)) <==> s in Need(step) && s in m && m[s].done < Threshold(m[s].total)
  {
    FilterMembers(Need(step), IsShort(m));
  }

  /** At most one overdue line and three stage lines: the cap of 8 never cuts. */
  lemma MissingBounded(step: Step, m: map<string, Tally>, overdueCount: nat)
    ensures |MissingList(step, m, overdueCount)| <= 4
    ensures MissingList(step, m, overdueCount)
      == (if overdueCount > 0 then [OverdueLine(overdueCount)] else []) + Map(Filter(Need(step), IsShort(m)), ShortLine(m))
  {
  }

  /** With an overdue task, the summary line comes first; without one, every line is a stage line. */
  lemma OverdueLineFirst(step: Step, m: map<string, Tally>, overdueCount: nat)
    ensures overdueCount > 0 ==> MissingList(step, m, overdueCount)[0] == OverdueLine(overdueCount)
    ensures overdueCount == 0 ==> MissingList(step, m, overdueCount) == Map(Filter(Need(step), IsShort(m)), ShortLine(m))
  {
    MissingBounded(step, m, overdueCount);
  }

  /** The gate: fewer than two overdue tasks and fewer than three missing lines. */
  predicate Ready(overdueCount: nat, missing: seq<string>)
  {
    overdueCount < 2 && |missing| < 3
  }

  /** The gate for a step, computed from the tasks and the checklist. */
  predicate ReadyFor(step: Step, tasks: seq<Task>, checklist: seq<ChecklistItem>, today: int)
  {
    var n := |OverdueTasks(tasks, today)|;
    Ready(n, MissingList(step, StageMap(checklist), n))
  }

  /** Two or more overdue tasks block every step. */
  lemma TwoOverdueBlock(step: Step, tasks: seq<Task>, checklist: seq<ChecklistItem>, today: int)
    requires |OverdueTasks(tasks, today)| >= 2
    ensures !ReadyFor(step, tasks, checklist, today)
  {
  }

  /** With one overdue task, only the three-stage Notary step can reach three missing lines. */
  lemma SingleStageStepsReady(step: Step, m: map<string, Tally>, overdueCount: nat)
    requires step != Notary && overdueCount < 2
    ensures Ready(overdueCount, MissingList(step, m, overdueCount))
  {
    MissingBounded(step, m, overdueCount);
  }

  /** Switching the step changes the verdict: all three Notary stages short, no Closing stage. */
  lemma StepChangesReady()
    ensures var m := map["Intake" := Tally(0, 1), "Contracts" := Tally(0, 1), "Notary" := Tally(0, 1)];
      !Ready(0, MissingList(Notary, m, 0)) && Ready(0, MissingList(Taxes, m, 0))
  {
    var m := map["Intake" := Tally(0, 1), "Contracts" := Tally(0, 1), "Notary" := Tally(0, 1)];
    assert Filter(Need(Notary), IsShort(m)) == Need(Notary) by {
      var need := Need(Notary);
      assert IsShort(m)(need[0]) && IsShort(m)(need[1]) && IsShort(m)(need[2]);
      assert need[1..][1..] == [need[2]];
    }
    assert Filter(Need(Taxes), IsShort(m)) == [];
  }
}
