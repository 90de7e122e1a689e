/**
 * Facts that only show when two parts of the system are read together.
 * The closing-pack wizard asks for English stage names and treats the
 * status "Hecho" as finished, while the seed data and the translation
 * migration write Spanish stage names and the rest of the application
 * finishes a task with "Done". The files drawer and the backend also
 * decide differently what counts as a PDF.
 */
module CrossChecks {
  import opened Common
  import opened Text
  import opened Entities
  import opened Grouping
  import W = ClosingPackWizard
  import V = ClosingPackView
  import P = ClosingPack
  import M = TranslateMigration
  import S = Seed
  import FU = FileUtils
  import FR = FilesRoom

  /** Every stage a wizard step asks for is an English name the migration translates away. */
  lemma NeedIsTranslated(step: W.Step)
    ensures forall s :: s in W.Need(step) ==> s in M.StageTranslations && M.TranslateStage(s) != s
  {
  }

  /**
   * When no checklist row carries a stage the step asks for, no stage is
   * ever short: the missing list holds at most the overdue line, and the
   * gate depends on the overdue count alone.
   */
  lemma AbsentStagesNeverMissing(step: W.Step, tasks: seq<Task>, checklist: seq<ChecklistItem>, today: int)
    requires forall i :: 0 <= i < |checklist| ==> checklist[i].stage !in W.Need(step)
    ensures forall s :: s in W.Need(step) ==> s !in W.StageMap(checklist)
    ensures var n := |W.OverdueTasks(tasks, today)|;
      W.MissingList(step, W.StageMap(checklist), n) == (if n > 0 then [W.OverdueLine(n)] else [])
    ensures W.ReadyFor(step, tasks, checklist, today) <==> |W.OverdueTasks(tasks, today)| < 2
  {
    var m := W.StageMap(checklist);
    var need := W.Need(step);
    FirstOccurrencesMembers(checklist, StageOf);
    assert forall s :: s in need ==> s !in m;
    assert forall i :: 0 <= i < |need| ==> !W.IsShort(m)(need[i]);
    FilterNone(need, W.IsShort(m));
  }

  /**
   * After the translation migration no checklist row has an English stage,
   * so the wizard skips every stage it asks for and is ready exactly when
   * fewer than two tasks are overdue, however little of the checklist is done.
   */
  lemma MigratedChecklistSkipped(step: W.Step, tasks: seq<Task>, rows: seq<ChecklistItem>, today: int)
    ensures forall s :: s in W.Need(step) ==> s !in W.StageMap(M.RewriteAll(rows, M.Spanish))
    ensures W.ReadyFor(step, tasks, M.RewriteAll(rows, M.Spanish), today) <==> |W.OverdueTasks(tasks, today)| < 2
  {
    var after := M.RewriteAll(rows, M.Spanish);
    M.StageTranslationsAreFinal();
    forall i | 0 <= i < |after|
      ensures after[i].stage !in W.Need(step)
    {
      assert after[i].stage == M.TranslateStage(rows[i].stage);
    }
    AbsentStagesNeverMissing(step, tasks, after, today);
  }

  /** The seed templates use only the Spanish stage names. */
  lemma SeedStagesAreSpanish(transactionType: string)
    ensures forall i :: 0 <= i < |S.Template(transactionType)| ==>
      S.Template(transactionType)[i].0 in {"Admision", "DD", "Contratos", "Notaría", "Cierre", "Registro"}
  {
  }

  /** The same holds for a freshly seeded checklist, whatever the project. */
  lemma SeededChecklistSkipped(step: W.Step, tasks: seq<Task>, p: Project, today: int, firstId: int)
    ensures forall s :: s in W.Need(step) ==> s !in W.StageMap(S.ChecklistRows(p, today, firstId))
    ensures W.ReadyFor(step, tasks, S.ChecklistRows(p, today, firstId), today) <==> |W.OverdueTasks(tasks, today)| < 2
  {
    var rows := S.ChecklistRows(p, today, firstId);
    S.ChecklistRowsMeaning(p, today, firstId);
    SeedStagesAreSpanish(p.transactionType);
    forall i | 0 <= i < |rows|
      ensures rows[i].stage !in W.Need(step)
    {
      assert rows[i].stage == S.Template(p.transactionType)[i].0;
    }
    AbsentStagesNeverMissing(step, tasks, rows, today);
  }

  /**
   * A task finished as "Done" is closed for the readiness card and the
   * closing pack, yet still open (and possibly overdue) for the wizard.
   */
  lemma DoneIsOpenForWizard(t: Task, today: int)
    requires t.status == "Done"
    ensures W.IsOpen(t) && !V.IsOpen(t) && !P.IsOpen(t)
    ensures W.OverdueTasks([t], today) == (if t.dueDate.Some? && t.dueDate.value < today then [t] else [])
  {
  }

  /**
   * Two finished tasks that were due yesterday: the readiness card shows
   * "Ready", while the wizard refuses every step.
   */
  lemma FinishedTasksBlockWizard(step: W.Step, project: Option<Project>, checklist: seq<ChecklistItem>, today: int)
    ensures var t1 := Task(1, 1, "a", "Done", "x", Some(today - 1), "Medium", None, None);
      var t2 := Task(2, 1, "b", "Done", "x", Some(today - 1), "Medium", None, None);
      && V.ReadinessCard(project, [t1, t2], checklist).pill == "Ready"
      && !W.ReadyFor(step, [t1, t2], checklist, today)
  {
    var t1 := Task(1, 1, "a", "Done", "x", Some(today - 1), "Medium", None, None);
    var t2 := Task(2, 1, "b", "Done", "x", Some(today - 1), "Medium", None, None);
    V.ReadyMeaning(project, [t1, t2], checklist);
    var ts := [t1, t2];
    assert ts[0] == t1 && ts[1..] == [t2] && [t2][0] == t2 && [t2][1..] == [];
    assert Filter([t2], W.IsOpen) == [t2];
    assert W.OpenTasks(ts) == ts;
    assert Filter([t2], W.OverdueAt(today)) == [t2];
    assert W.OverdueTasks(ts, today) == ts;
    W.TwoOverdueBlock(step, [t1, t2], checklist, today);
  }

  /**
   * The drawer and the backend agree on ordinary types: the backend's PDF
   * type gets the PDF frame, and the drawer only shows an image tag for
   * what the backend calls an image.
   */
  lemma PreviewAgreesOnPlainTypes(mimeType: string)
    ensures FU.IsPdfFile(mimeType) ==> FR.PreviewKind(Some(mimeType)) == FR.PdfFrame
    ensures FR.PreviewKind(Some(mimeType)) == FR.ImageTag <==> FU.IsImageFile(mimeType) && !Contains(mimeType, "pdf")
  {
    FR.PreviewCases(Some(mimeType));
    if FU.IsPdfFile(mimeType) {
      assert OccursAt(mimeType, "pdf", 12);
    }
  }

  /** But an image type that mentions "pdf" is an image to the backend and a PDF to the drawer. */
  lemma ImageNamedPdf()
    ensures FU.IsImageFile("image/x-pdf") && !FU.IsPdfFile("image/x-pdf")
    ensures FR.PreviewKind(Some("image/x-pdf")) == FR.PdfFrame
  {
    FR.PdfCheckedFirst();
    assert "image/x-pdf"[..6] == "image/";
  }
}
