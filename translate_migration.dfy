/**
 * The data migration 8be2436779fe, which translates the checklist to
 * Spanish. Each row's label and stage go through their own lookup table
 * (a value missing from a table is kept), and only rows where one of the
 * two actually changes are written back, with one UPDATE per row by
 * primary key. The downgrade does nothing.
 */
module TranslateMigration {
  import opened Entities
  import opened DbQueries
  import opened Db

  /**
   * English checklist labels and their Spanish replacements. The migration
   * keeps them in one dictionary, grouped by stage; the model keeps one map
   * per group, with pairwise distinct keys, so a lookup in the dictionary
   * is a lookup in the one group that holds the label.
   */
  const IntakeLabels: map<string, string> := map[
    "KYC / Client onboarding + engagement letter" := "KYC / Incorporación del cliente + carta de compromiso",
    "Collect passports + proof of funds" := "Recopilar pasaportes + prueba de fondos",
    "Apply for NIE (if needed)" := "Solicitar NIE (si es necesario)",
    "Engagement letter + seller KYC" := "Carta de compromiso + KYC del vendedor"
  ]

  const DiligenceLabels: map<string, string> := map[
    "Request Nota Simple (Land Registry extract)" := "Solicitar Nota Simple (extracto del Registro de la Propiedad)",
    "Check cargas/encumbrances + ownership" := "Verificar cargas/gravámenes + titularidad",
    "Check IBI & community fees (HOA) paid" := "Verificar pagos de IBI y cuotas comunitarias",
    "Check permits, LPO / AFO if applicable" := "Verificar permisos, LPO / AFO si aplicable",
    "Obtain Nota Simple + verify title" := "Obtener Nota Simple + verificar título",
    "Energy certificate + required disclosures" := "Certificado energético + divulgaciones requeridas"
  ]

  const ContractLabels: map<string, string> := map[
    "Review/prepare reservation agreement" := "Revisar/preparar contrato de reserva",
    "Draft/review Arras contract (deposit)" := "Redactar/revisar contrato de Arras (depósito)",
    "Draft/review reservation + Arras" := "Redactar/revisar reserva + Arras"
  ]

  const NotaryLabels: map<string, string> := map[
    "Coordinate notary appointment (Escritura)" := "Coordinar cita notarial (Escritura)",
    "Prepare completion statement + funds routing" := "Preparar declaración de finalización + ruta de fondos",
    "Notary coordination + cancel charges (if any)" := "Coordinación notarial + cancelar cargas (si las hay)"
  ]

  const ClosingLabels: map<string, string> := map[
    "Prepare ITP/AJD filing pack" := "Preparar paquete de presentación ITP/AJD",
    "Calculate Plusvalía municipal + CGT guidance" := "Calcular Plusvalía municipal + orientación sobre CGT"
  ]

  const RegistryLabels: map<string, string> := map[
    "Present deed to Land Registry" := "Presentar escritura al Registro de la Propiedad",
    "Update cadastre / utilities & direct debits" := "Actualizar catastro / suministros y débitos directos",
    "Register transfer + notify utilities/HOA" := "Registrar transferencia + notificar suministros/comunidad"
  ]

  /** English stage names and their Spanish replacements; "DD" has no entry. */
  const StageTranslations: map<string, string> := map[
    "Intake" := "Admision",
    "Contracts" := "Contratos",
    "Notary" := "Notaría",
    "Closing" := "Cierre",
    "Registry" := "Registro"
  ]

  /** `translation_map.get(label, label)` */
  function TranslateLabel(s: string): string
  {
    if s in IntakeLabels then IntakeLabels[s]
    else if s in DiligenceLabels then DiligenceLabels[s]
    else if s in ContractLabels then ContractLabels[s]
    else if s in NotaryLabels then NotaryLabels[s]
    else if s in ClosingLabels then ClosingLabels[s]
    else if s in RegistryLabels then RegistryLabels[s]
    else s
  }

  /** A label that no group translates, split in two halves to keep each proof small. */
  predicate Untranslatable(s: string)
  {
    UnknownEarly(s) && UnknownLate(s)
  }

  predicate UnknownEarly(s: string)
  {
    s !in IntakeLabels && s !in DiligenceLabels && s !in ContractLabels
  }

  predicate UnknownLate(s: string)
  {
    s !in NotaryLabels && s !in ClosingLabels && s !in RegistryLabels
  }

  /** `stage_map.get(stage, stage)` */
  function TranslateStage(s: string): string
  {
    if s in StageTranslations then StageTranslations[s] else s
  }

  /** The two lookups of the translation pass: one for labels, one for stages. */
  datatype Lookups = Lookups(forLabel: string -> string, forStage: string -> string)

  /** The lookups `upgrade()` uses. */
  const Spanish: Lookups := Lookups(TranslateLabel, TranslateStage)

  /** A row after the pass: label and stage looked up, each on its own. */
  function Rewrite(c: ChecklistItem, t: Lookups): ChecklistItem
  {
    c.(itemLabel := t.forLabel(c.itemLabel), stage := t.forStage(c.stage))
  }

  /** `new_label != label or new_stage != stage` */
  predicate Differs(c: ChecklistItem, t: Lookups)
  {
    t.forLabel(c.itemLabel) != c.itemLabel || t.forStage(c.stage) != c.stage
  }

  /** The whole table after the pass. */
  function RewriteAll(rows: seq<ChecklistItem>, t: Lookups): (r: seq<ChecklistItem>)
    ensures |r| == |rows|
  {
    seq(|rows|, i requires 0 <= i < |rows| => Rewrite(rows[i], t))
  }

  /** The keys of the UPDATE statements issued for the first `n` rows, in row order. */
  function WrittenIds(rows: seq<ChecklistItem>, t: Lookups, n: nat): seq<int>
    requires n <= |rows|
  {
    if n == 0 then []
    else WrittenIds(rows, t, n - 1) + (if Differs(rows[n - 1], t) then [rows[n - 1].id] else [])
  }

  /** `UPDATE checklist_items SET label = :label, stage = :stage WHERE id = :id` */
  function SetWhere(rows: seq<ChecklistItem>, id: int, newLabel: string, newStage: string): (r: seq<ChecklistItem>)
    ensures |r| == |rows|
  {
    seq(|rows|, i requires 0 <= i < |rows| =>
      if rows[i].id == id then rows[i].(itemLabel := newLabel, stage := newStage) else rows[i])
  }

  lemma IntakeLabelsAreFinal()
    ensures forall k :: k in IntakeLabels ==> Untranslatable(IntakeLabels[k])
  {
    IntakeLabelsEarly();
    IntakeLabelsLate();
  }

  lemma IntakeLabelsEarly()
    ensures forall k :: k in IntakeLabels ==> UnknownEarly(IntakeLabels[k])
  {
  }

  lemma IntakeLabelsLate()
    ensures forall k :: k in IntakeLabels ==> UnknownLate(IntakeLabels[k])
  {
  }

  lemma DiligenceLabelsAreFinal()
    ensures forall k :: k in DiligenceLabels ==> Untranslatable(DiligenceLabels[k])
  {
    DiligenceLabelsEarly();
    DiligenceLabelsLate();
  }

  lemma DiligenceLabelsEarly()
    ensures forall k :: k in DiligenceLabels ==> UnknownEarly(DiligenceLabels[k])
  {
  }

  lemma DiligenceLabelsLate()
    ensures forall k :: k in DiligenceLabels ==> UnknownLate(DiligenceLabels[k])
  {
  }

  lemma ContractLabelsAreFinal()
    ensures forall k :: k in ContractLabels ==> Untranslatable(ContractLabels[k])
  {
    ContractLabelsEarly();
    ContractLabelsLate();
  }

  lemma ContractLabelsEarly()
    ensures forall k :: k in ContractLabels ==> UnknownEarly(ContractLabels[k])
  {
  }

  lemma ContractLabelsLate()
    ensures forall k :: k in ContractLabels ==> UnknownLate(ContractLabels[k])
  {
  }

  lemma NotaryLabelsAreFinal()
    ensures forall k :: k in NotaryLabels ==> Untranslatable(NotaryLabels[k])
  {
    NotaryLabelsEarly();
    NotaryLabelsLate();
  }

  lemma NotaryLabelsEarly()
    ensures forall k :: k in NotaryLabels ==> UnknownEarly(NotaryLabels[k])
  {
  }

  lemma NotaryLabelsLate()
    ensures forall k :: k in NotaryLabels ==> UnknownLate(NotaryLabels[k])
  {
  }

  lemma ClosingLabelsAreFinal()
    ensures forall k :: k in ClosingLabels ==> Untranslatable(ClosingLabels[k])
  {
    ClosingLabelsEarly();
    ClosingLabelsLate();
  }

  lemma ClosingLabelsEarly()
    ensures forall k :: k in ClosingLabels ==> UnknownEarly(ClosingLabels[k])
  {
  }

  lemma ClosingLabelsLate()
    ensures forall k :: k in ClosingLabels ==> UnknownLate(ClosingLabels[k])
  {
  }

  lemma RegistryLabelsAreFinal()
    ensures forall k :: k in RegistryLabels ==> Untranslatable(RegistryLabels[k])
  {
    RegistryLabelsEarly();
    RegistryLabelsLate();
  }

  lemma RegistryLabelsEarly()
    ensures forall k :: k in RegistryLabels ==> UnknownEarly(RegistryLabels[k])
  {
  }

  lemma RegistryLabelsLate()
    ensures forall k :: k in RegistryLabels ==> UnknownLate(RegistryLabels[k])
  {
  }

  /** Every label the migration produces is left alone by a second run. */
  lemma LabelTranslationIsFinal(s: string)
    ensures TranslateLabel(TranslateLabel(s)) == TranslateLabel(s)
  {
    if !Untranslatable(s) {
      var v := TranslateLabel(s);
      assert Untranslatable(v) by {
        if s in IntakeLabels {
          IntakeLabelsAreFinal();
        } else if s in DiligenceLabels {
          DiligenceLabelsAreFinal();
        } else if s in ContractLabels {
          ContractLabelsAreFinal();
        } else if s in NotaryLabels {
          NotaryLabelsAreFinal();
        } else if s in ClosingLabels {
          ClosingLabelsAreFinal();
        } else if s in RegistryLabels {
          RegistryLabelsAreFinal();
        }
      }
      Untouched(v);
    }
  }

  /** A label no group holds is kept as it is. */
  lemma Untouched(s: string)
    requires Untranslatable(s)
    ensures TranslateLabel(s) == s
  {
  }

  lemma StageTranslationsAreFinal()
    ensures forall k :: k in StageTranslations ==> StageTranslations[k] !in StageTranslations
  {
  }

  /**
   * Translating twice is translating once: no Spanish value is itself an
   * English key of either table.
   */
  lemma TranslateTwice(c: ChecklistItem)
    ensures Rewrite(Rewrite(c, Spanish), Spanish) == Rewrite(c, Spanish)
    ensures !Differs(Rewrite(c, Spanish), Spanish)
  {
    LabelTranslationIsFinal(c.itemLabel);
    StageTranslationsAreFinal();
  }

  /** A row is written exactly when its translation differs from it. */
  lemma DiffersMeaning(c: ChecklistItem, t: Lookups)
    ensures Differs(c, t) <==> Rewrite(c, t) != c
  {
    if Rewrite(c, t) == c {
      assert Rewrite(c, t).itemLabel == c.itemLabel && Rewrite(c, t).stage == c.stage;
    }
  }

  /** The stage table: the five English stages become Spanish; "DD" and anything else stays. */
  lemma StageTable(s: string)
    ensures TranslateStage("Intake") == "Admision" && TranslateStage("Contracts") == "Contratos"
    ensures TranslateStage("Notary") == "Notaría" && TranslateStage("Closing") == "Cierre"
    ensures TranslateStage("Registry") == "Registro" && TranslateStage("DD") == "DD"
    ensures s !in {"Intake", "Contracts", "Notary", "Closing", "Registry"} ==> TranslateStage(s) == s
  {
  }

  /** The ids written are exactly those of the rows that change, each once, in row order. */
  lemma {:induction false} WrittenIdsMeaning(rows: seq<ChecklistItem>, t: Lookups, n: nat)
    requires n <= |rows|
    ensures |WrittenIds(rows, t, n)| <= n
    ensures forall id :: id in WrittenIds(rows, t, n) <==> exists i :: 0 <= i < n && rows[i].id == id && Differs(rows[i], t)
  {
    if n > 0 {
      WrittenIdsMeaning(rows, t, n - 1);
      var pre := WrittenIds(rows, t, n - 1);
      forall id
        ensures id in WrittenIds(rows, t, n) <==> exists i :: 0 <= i < n && rows[i].id == id && Differs(rows[i], t)
      {
        if id in WrittenIds(rows, t, n) && id !in pre {
          assert rows[n - 1].id == id && Differs(rows[n - 1], t);
        }
      }
    }
  }

  /** Running the migration a second time changes nothing and issues no UPDATE. */
  lemma {:induction false} UpgradeTwice(rows: seq<ChecklistItem>)
    ensures RewriteAll(RewriteAll(rows, Spanish), Spanish) == RewriteAll(rows, Spanish)
    ensures WrittenIds(RewriteAll(rows, Spanish), Spanish, |rows|) == []
  {
    var once := RewriteAll(rows, Spanish);
    forall i | 0 <= i < |rows|
      ensures RewriteAll(once, Spanish)[i] == once[i] && !Differs(once[i], Spanish)
    {
      TranslateTwice(rows[i]);
    }
    NothingWritten(once, Spanish, |rows|);
  }

  lemma {:induction false} NothingWritten(rows: seq<ChecklistItem>, t: Lookups, n: nat)
    requires n <= |rows|
    requires forall i :: 0 <= i < |rows| ==> !Differs(rows[i], t)
    ensures WrittenIds(rows, t, n) == []
  {
    if n > 0 {
      NothingWritten(rows, t, n - 1);
    }
  }

  /** The UPDATE of one row, by its primary key. */
  method UpdateRow(db: Database, id: int, newLabel: string, newStage: string)
    requires db.Valid()
    modifies db
    ensures db.Valid()
    ensures db.checklist == SetWhere(old(db.checklist), id, newLabel, newStage)
    ensures db.clients == old(db.clients) && db.projects == old(db.projects) && db.tasks == old(db.tasks)
    ensures db.timeline == old(db.timeline) && db.activities == old(db.activities)
    ensures db.files == old(db.files) && db.onDisk == old(db.onDisk)
  {
    db.checklist := SetWhere(db.checklist, id, newLabel, newStage);
    assert forall i :: 0 <= i < |db.checklist| ==> db.checklist[i].id == old(db.checklist)[i].id;
  }

  /**
   * The loop of `upgrade()`: reads every checklist row, looks up label and
   * stage, and writes back only the rows that change; `written` lists the
   * keys of the UPDATE statements in the order they are issued. Only label
   * and stage change, and no other table is touched.
   */
  method RewriteRows(db: Database, t: Lookups) returns (written: seq<int>)
    requires db.Valid()
    modifies db
    ensures db.Valid()
    ensures db.checklist == RewriteAll(old(db.checklist), t)
    ensures written == WrittenIds(old(db.checklist), t, |old(db.checklist)|)
    ensures forall i :: 0 <= i < |db.checklist| ==>
      && db.checklist[i].id == old(db.checklist)[i].id && db.checklist[i].projectId == old(db.checklist)[i].projectId
      && db.checklist[i].isDone == old(db.checklist)[i].isDone && db.checklist[i].dueDate == old(db.checklist)[i].dueDate
    ensures db.clients == old(db.clients) && db.projects == old(db.projects) && db.tasks == old(db.tasks)
    ensures db.timeline == old(db.timeline) && db.activities == old(db.activities)
    ensures db.files == old(db.files) && db.onDisk == old(db.onDisk)
  {
    var rows := db.checklist;
    written := [];
    for k := 0 to |rows|
      invariant db.Valid()
      invariant |db.checklist| == |rows|
      invariant forall i :: 0 <= i < |rows| ==> db.checklist[i] == (if i < k then Rewrite(rows[i], t) else rows[i])
      invariant written == WrittenIds(rows, t, k)
      invariant db.clients == old(db.clients) && db.projects == old(db.projects) && db.tasks == old(db.tasks)
      invariant db.timeline == old(db.timeline) && db.activities == old(db.activities)
      invariant db.files == old(db.files) && db.onDisk == old(db.onDisk)
    {
      var c := rows[k];
      var newLabel := t.forLabel(c.itemLabel);
      var newStage := t.forStage(c.stage);
      if newLabel != c.itemLabel || newStage != c.stage {
        ghost var before := db.checklist;
        UpdateRow(db, c.id, newLabel, newStage);
        forall i | 0 <= i < |rows|
          ensures db.checklist[i] == (if i < k + 1 then Rewrite(rows[i], t) else rows[i])
        {
          assert before[i].id == rows[i].id;
          if i != k {
            assert ChecklistIdOf(before[i]) != ChecklistIdOf(before[k]);
          }
        }
        written := written + [c.id];
      }
    }
  }

  /** `upgrade()`: the pass with the two translation tables. */
  method Upgrade(db: Database) returns (written: seq<int>)
    requires db.Valid()
    modifies db
    ensures db.Valid()
    ensures db.checklist == RewriteAll(old(db.checklist), Spanish)
    ensures written == WrittenIds(old(db.checklist), Spanish, |old(db.checklist)|)
    ensures db.clients == old(db.clients) && db.projects == old(db.projects) && db.tasks == old(db.tasks)
    ensures db.timeline == old(db.timeline) && db.activities == old(db.activities)
    ensures db.files == old(db.files) && db.onDisk == old(db.onDisk)
  {
    written := RewriteRows(db, Spanish);
  }

  /** `downgrade()`: does nothing, so the Spanish labels and stages stay. */
  method Downgrade(db: Database)
    modifies db
    ensures unchanged(db)
  {
  }
}
