/**
 * The conveyancing checklist panel: items grouped by stage in an
 * insertion-ordered `Map`, one group per stage, with a done/total header.
 */
module Checklist {
  import opened Common
  import opened Entities
  import opened Grouping
  import ClosingPackWizard

  function IsDone(c: ChecklistItem): bool
  {
    c.isDone
  }

  /** The header pill of a group: done items over all items. */
  function Header(group: seq<ChecklistItem>): (t: ClosingPackWizard.Tally)
    ensures t.done <= t.total == |group|
  {
    ClosingPackWizard.Tally(Count(group, IsDone), |group|)
  }

  /**
   * Each header counts exactly the done items and all items of its stage in
   * the whole checklist: the same tally the closing-pack wizard computes.
   */
  lemma HeaderIsStageTally(items: seq<ChecklistItem>, i: int)
    requires 0 <= i < |Grouped(items, StageOf)|
    ensures var g := Grouped(items, StageOf)[i];
      Header(g.1) == ClosingPackWizard.StageTally(items, g.0)
  {
    var k := FirstOccurrences(items, StageOf)[i];
    assert Grouped(items, StageOf)[i] == (k, Filter(items, HasKey(k, StageOf)));
    forall x: ChecklistItem
      ensures ClosingPackWizard.DoneInStage(k)(x) == (HasKey(k, StageOf)(x) && IsDone(x))
    {
      assert StageOf(x) == x.stage;
    }
    FilterFilter(items, HasKey(k, StageOf), IsDone, ClosingPackWizard.DoneInStage(k));
  }
}
