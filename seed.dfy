/**
 * The demo data the backend writes at start-up into a database without
 * projects.  The demo texts themselves (client names, project titles,
 * task and activity wording, file names) are a `SeedPlan` handed in; the
 * rules the seeder applies to them are modelled here: which checklist
 * template a project gets and how much of it is done, the fixed timeline
 * phases, due dates relative to today, and activity timestamps.
 *
 * Dates are day numbers; timestamps are seconds, so a date stored into a
 * timestamp column is its midnight, `day * SecondsPerDay`.
 */
module Seed {
  import opened Common
  import opened Entities
  import opened DbQueries
  import opened Dates
  import opened Db

  const SecondsPerDay: int := 86400

  /** `PURCHASE`: the fourteen (stage, label) items of a purchase. */
  const Purchase: seq<(string, string)> := [
    ("Admision", "KYC / Incorporación del cliente + carta de compromiso"),
    ("Admision", "Recopilar pasaportes + prueba de fondos"),
    ("Admision", "Solicitar NIE (si es necesario)"),
    ("DD", "Solicitar Nota Simple (extracto del Registro de la Propiedad)"),
    ("DD", "Verificar cargas/gravámenes + titularidad"),
    ("DD", "Verificar pagos de IBI y cuotas comunitarias"),
    ("DD", "Verificar permisos, LPO / AFO si aplicable"),
    ("Contratos", "Revisar/preparar contrato de reserva"),
    ("Contratos", "Redactar/revisar contrato de Arras (depósito)"),
    ("Notaría", "Coordinar cita notarial (Escritura)"),
    ("Notaría", "Preparar declaración de finalización + ruta de fondos"),
    ("Cierre", "Preparar paquete de presentación ITP/AJD"),
    ("Registro", "Presentar escritura al Registro de la Propiedad"),
    ("Registro", "Actualizar catastro / suministros y débitos directos")
  ]

  /** `SALE`: the seven (stage, label) items of a sale. */
  const Sale: seq<(string, string)> := [
    ("Admision", "Carta de compromiso + KYC del vendedor"),
    ("DD", "Obtener Nota Simple + verificar título"),
    ("DD", "Certificado energético + divulgaciones requeridas"),
    ("Contratos", "Redactar/revisar reserva + Arras"),
    ("Notaría", "Coordinación notarial + cancelar cargas (si las hay)"),
    ("Cierre", "Calcular Plusvalía municipal + orientación sobre CGT"),
    ("Registro", "Registrar transferencia + notificar suministros/comunidad")
  ]

  /** Purchases get the purchase template; every other transaction type the sale one. */
  function Template(transactionType: string): seq<(string, string)>
  {
    if transactionType == "Purchase" then Purchase else Sale
  }

  /** How many leading checklist items a project of this status and risk starts with done. */
  function DoneCount(status: string, risk: string): nat
  {
    if status == "Due Diligence" then 4
    else if status == "Contracts" then 6
    else if status == "Notary" then (if risk == "Critical" then 8 else 9)
    else if status == "Registry" then 12
    else 2
  }

  /** The checklist item the seeder writes for entry `idx` of a template. */
  function SeedItem(id: int, p: Project, entry: (string, string), idx: nat, today: int): ChecklistItem
  {
    ChecklistItem(id, p.id, entry.0, entry.1, idx < DoneCount(p.status, p.risk), Some(today + idx * 2 + 1))
  }

  /** The items written for the first `n` entries of `template`, keys from `firstId` on. */
  function SeedItems(p: Project, template: seq<(string, string)>, today: int, firstId: int, n: nat): seq<ChecklistItem>
    requires n <= |template|
  {
    if n == 0 then []
    else SeedItems(p, template, today, firstId, n - 1) + [SeedItem(firstId + n - 1, p, template[n - 1], n - 1, today)]
  }

  /** `add_checklist(p)`: one item per entry of the project's template, in template order. */
  function ChecklistRows(p: Project, today: int, firstId: int): seq<ChecklistItem>
  {
    var template := Template(p.transactionType);
    SeedItems(p, template, today, firstId, |template|)
  }

  lemma {:induction false} SeedItemsAt(p: Project, template: seq<(string, string)>, today: int, firstId: int, n: nat)
    requires n <= |template|
    ensures |SeedItems(p, template, today, firstId, n)| == n
    ensures forall i :: 0 <= i < n ==>
      SeedItems(p, template, today, firstId, n)[i] == SeedItem(firstId + i, p, template[i], i, today)
  {
    if n > 0 {
      SeedItemsAt(p, template, today, firstId, n - 1);
    }
  }

  /**
   * A purchase gets the 14 purchase items and anything else the 7 sale
   * items, stage and label in template order; the items done are exactly
   * the first `DoneCount` ones, so done items form a prefix; due dates are
   * one day after today and then every second day, strictly increasing.
   */
  lemma ChecklistRowsMeaning(p: Project, today: int, firstId: int)
    ensures var rows := ChecklistRows(p, today, firstId);
      && |rows| == (if p.transactionType == "Purchase" then 14 else 7)
      && (forall i :: 0 <= i < |rows| ==>
            && rows[i].id == firstId + i && rows[i].projectId == p.id
            && (rows[i].stage, rows[i].itemLabel) == Template(p.transactionType)[i]
            && (rows[i].isDone <==> i < DoneCount(p.status, p.risk))
            && rows[i].dueDate == Some(today + 2 * i + 1))
      && (forall i, j :: 0 <= i < j < |rows| && rows[j].isDone ==> rows[i].isDone)
      && (forall i, j :: 0 <= i < j < |rows| ==> rows[i].dueDate.value < rows[j].dueDate.value)
      && (forall i :: 0 <= i < |rows| ==> rows[i].dueDate.value > today)
  {
    var template := Template(p.transactionType);
    SeedItemsAt(p, template, today, firstId, |template|);
  }

  /**
   * A sale at the notary or registry stage starts with every item done; a
   * purchase at the registry stage starts with exactly its two registry
   * items open.
   */
  lemma ChecklistLateStages(p: Project, today: int, firstId: int)
    ensures var rows := ChecklistRows(p, today, firstId);
      && (p.transactionType != "Purchase" && (p.status == "Notary" || p.status == "Registry") ==>
            forall i :: 0 <= i < |rows| ==> rows[i].isDone)
      && (p.transactionType == "Purchase" && p.status == "Registry" ==>
            forall i :: 0 <= i < |rows| ==> (rows[i].isDone <==> rows[i].stage != "Registro"))
  {
    var template := Template(p.transactionType);
    var rows := ChecklistRows(p, today, firstId);
    SeedItemsAt(p, template, today, firstId, |template|);
    if p.transactionType == "Purchase" && p.status == "Registry" {
      forall i | 0 <= i < |rows|
        ensures rows[i].isDone <==> rows[i].stage != "Registro"
      {
        assert rows[i].stage == Purchase[i].0;
      }
    }
  }

  /** `db.add(ChecklistItem(...))`: one checklist row under the next key. */
  method AppendChecklist(db: Database, c: ChecklistItem)
    requires db.Valid() && c.id == NextId(db.checklist, ChecklistIdOf)
    modifies db
    ensures db.Valid()
    ensures db.checklist == old(db.checklist) + [c]
    ensures NextId(db.checklist, ChecklistIdOf) == c.id + 1
    ensures db.clients == old(db.clients) && db.projects == old(db.projects) && db.tasks == old(db.tasks)
    ensures db.timeline == old(db.timeline) && db.activities == old(db.activities)
    ensures db.files == old(db.files) && db.onDisk == old(db.onDisk)
  {
    InsertKeepsUnique(db.checklist, ChecklistIdOf, c);
    NextIdAfterInsert(db.checklist, ChecklistIdOf, c);
    db.checklist := db.checklist + [c];
  }

  /** The seeder's `done` flag for entry `idx`, by the project's status and risk. */
  method DoneFlag(status: string, risk: string, idx: nat) returns (done: bool)
    ensures done <==> idx < DoneCount(status, risk)
  {
    done := false;
    if status == "Due Diligence" {
      done := idx < 4;
    } else if status == "Contracts" {
      done := idx < 6;
    } else if status == "Notary" {
      if risk == "Critical" {
        done := idx < 8;
      } else {
        done := idx < 9;
      }
    } else if status == "Registry" {
      done := idx < 12;
    } else {
      done := idx < 2;
    }
  }

  /** The loop of `add_checklist`: one item per template entry, its flag from `DoneFlag`. */
  method AddItems(db: Database, p: Project, template: seq<(string, string)>, today: int)
    requires db.Valid()
    modifies db
    ensures db.Valid()
    ensures db.checklist == old(db.checklist) + SeedItems(p, template, today, NextId(old(db.checklist), ChecklistIdOf), |template|)
    ensures NextId(db.checklist, ChecklistIdOf) == NextId(old(db.checklist), ChecklistIdOf) + |template|
    ensures db.clients == old(db.clients) && db.projects == old(db.projects) && db.tasks == old(db.tasks)
    ensures db.timeline == old(db.timeline) && db.activities == old(db.activities)
    ensures db.files == old(db.files) && db.onDisk == old(db.onDisk)
  {
    var first := NextId(db.checklist, ChecklistIdOf);
    for idx := 0 to |template|
      invariant db.Valid()
      invariant db.checklist == old(db.checklist) + SeedItems(p, template, today, first, idx)
      invariant NextId(db.checklist, ChecklistIdOf) == first + idx
      invariant db.clients == old(db.clients) && db.projects == old(db.projects) && db.tasks == old(db.tasks)
      invariant db.timeline == old(db.timeline) && db.activities == old(db.activities)
      invariant db.files == old(db.files) && db.onDisk == old(db.onDisk)
    {
      AddItem(db, p, template, today, first, idx, old(db.checklist));
    }
  }

  /** One turn of the `add_checklist` loop: entry `idx` of the template. */
  method AddItem(db: Database, p: Project, template: seq<(string, string)>, today: int, first: int, idx: nat,
                 ghost base: seq<ChecklistItem>)
    requires db.Valid() && idx < |template|
    requires db.checklist == base + SeedItems(p, template, today, first, idx)
    requires NextId(db.checklist, ChecklistIdOf) == first + idx
    modifies db
    ensures db.Valid()
    ensures db.checklist == base + SeedItems(p, template, today, first, idx + 1)
    ensures NextId(db.checklist, ChecklistIdOf) == first + idx + 1
    ensures db.clients == old(db.clients) && db.projects == old(db.projects) && db.tasks == old(db.tasks)
    ensures db.timeline == old(db.timeline) && db.activities == old(db.activities)
    ensures db.files == old(db.files) && db.onDisk == old(db.onDisk)
  {
    var (stage, itemLabel) := template[idx];
    var done := DoneFlag(p.status, p.risk, idx);
    var item := ChecklistItem(NextId(db.checklist, ChecklistIdOf), p.id, stage, itemLabel, done, Some(today + idx * 2 + 1));
    AppendChecklist(db, item);
    AppendTail(base, SeedItems(p, template, today, first, idx), [item]);
  }

  /** `add_checklist(p)`: the purchase template for purchases, the sale one otherwise. */
  method AddChecklist(db: Database, p: Project, today: int)
    requires db.Valid()
    modifies db
    ensures db.Valid()
    ensures db.checklist == old(db.checklist) + ChecklistRows(p, today, NextId(old(db.checklist), ChecklistIdOf))
    ensures NextId(db.checklist, ChecklistIdOf) ==
      NextId(old(db.checklist), ChecklistIdOf) + |ChecklistRows(p, today, NextId(old(db.checklist), ChecklistIdOf))|
    ensures db.clients == old(db.clients) && db.projects == old(db.projects) && db.tasks == old(db.tasks)
    ensures db.timeline == old(db.timeline) && db.activities == old(db.activities)
    ensures db.files == old(db.files) && db.onDisk == old(db.onDisk)
  {
    var template := if p.transactionType == "Purchase" then Purchase else Sale;
    SeedItemsAt(p, template, today, NextId(db.checklist, ChecklistIdOf), |template|);
    AddItems(db, p, template, today);
  }

  /** `add_timeline`'s phases: (label, first day, last day) relative to today. */
  const Phases: seq<(string, int, int)> := [
    ("Intake", -8, -2),
    ("Due Diligence", -2, 10),
    ("Contracts", 6, 18),
    ("Notary", 14, 22),
    ("Registry", 20, 40)
  ]

  /** Each phase starts no later than it ends, after the previous one starts and before it ends. */
  lemma PhasesChain()
    ensures |Phases| == 5
    ensures forall i :: 0 <= i < 5 ==> Phases[i].1 <= Phases[i].2
    ensures forall i :: 0 < i < 5 ==> Phases[i - 1].1 < Phases[i].1 <= Phases[i - 1].2
  {
    forall i | 0 <= i < 5
      ensures Phases[i].1 <= Phases[i].2
      ensures i > 0 ==> Phases[i - 1].1 < Phases[i].1 <= Phases[i - 1].2
    {
      if i == 0 {
      } else if i == 1 {
      } else if i == 2 {
      } else if i == 3 {
      }
    }
  }

  function PhaseRow(id: int, projectId: int, phase: (string, int, int), today: int): TimelineItem
  {
    TimelineItem(id, projectId, phase.0, today + phase.1, today + phase.2, "Phase")
  }

  /** The rows written for the first `n` of `phases`, keys from `firstId` on. */
  function PhaseRows(projectId: int, phases: seq<(string, int, int)>, today: int, firstId: int, n: nat): (r: seq<TimelineItem>)
    requires n <= |phases|
  {
    if n == 0 then []
    else PhaseRows(projectId, phases, today, firstId, n - 1) + [PhaseRow(firstId + n - 1, projectId, phases[n - 1], today)]
  }

  /** `add_timeline(p, close_in_days)`: the five phases, then the target-completion milestone. */
  function TimelineRows(projectId: int, closeInDays: int, today: int, firstId: int): (r: seq<TimelineItem>)
    ensures |r| == 6
  {
    PhaseRowsAt(projectId, Phases, today, firstId, |Phases|);
    PhaseRows(projectId, Phases, today, firstId, |Phases|)
    + [TimelineItem(firstId + |Phases|, projectId, "Target completion", today + closeInDays, today + closeInDays, "Milestone")]
  }

  lemma {:induction false} PhaseRowsAt(projectId: int, phases: seq<(string, int, int)>, today: int, firstId: int, n: nat)
    requires n <= |phases|
    ensures |PhaseRows(projectId, phases, today, firstId, n)| == n
    ensures forall i :: 0 <= i < n ==>
      PhaseRows(projectId, phases, today, firstId, n)[i] == PhaseRow(firstId + i, projectId, phases[i], today)
  {
    if n > 0 {
      PhaseRowsAt(projectId, phases, today, firstId, n - 1);
    }
  }

  /**
   * Six rows: five phases Intake, Due Diligence, Contracts, Notary and
   * Registry, each starting no later than it ends, starting in that order,
   * each starting no later than the one before ends (no gap between them);
   * then one milestone on a single day, today plus the offset.
   */
  lemma TimelineRowsMeaning(projectId: int, closeInDays: int, today: int, firstId: int)
    ensures var rows := TimelineRows(projectId, closeInDays, today, firstId);
      && |rows| == 6
      && (forall i :: 0 <= i < 6 ==> rows[i].id == firstId + i && rows[i].projectId == projectId)
      && (forall i :: 0 <= i < 5 ==> rows[i].kind == "Phase" && rows[i].startDate <= rows[i].endDate)
      && rows[0].itemLabel == "Intake" && rows[1].itemLabel == "Due Diligence" && rows[2].itemLabel == "Contracts"
      && rows[3].itemLabel == "Notary" && rows[4].itemLabel == "Registry"
      && (forall i :: 0 < i < 5 ==> rows[i - 1].startDate < rows[i].startDate <= rows[i - 1].endDate)
      && rows[5].kind == "Milestone" && rows[5].itemLabel == "Target completion"
      && rows[5].startDate == rows[5].endDate == today + closeInDays
  {
    PhasesChain();
    PhaseRowsAt(projectId, Phases, today, firstId, |Phases|);
  }

  /** `db.add(TimelineItem(...))`: one timeline row under the next key. */
  method AppendTimeline(db: Database, m: TimelineItem)
    requires db.Valid() && m.id == NextId(db.timeline, TimelineIdOf)
    modifies db
    ensures db.Valid()
    ensures db.timeline == old(db.timeline) + [m]
    ensures NextId(db.timeline, TimelineIdOf) == m.id + 1
    ensures db.clients == old(db.clients) && db.projects == old(db.projects) && db.tasks == old(db.tasks)
    ensures db.checklist == old(db.checklist) && db.activities == old(db.activities)
    ensures db.files == old(db.files) && db.onDisk == old(db.onDisk)
  {
    InsertKeepsUnique(db.timeline, TimelineIdOf, m);
    NextIdAfterInsert(db.timeline, TimelineIdOf, m);
    db.timeline := db.timeline + [m];
  }

  /** The loop of `add_timeline`: one "Phase" row per (label, start, end). */
  method AddPhases(db: Database, projectId: int, phases: seq<(string, int, int)>, today: int)
    requires db.Valid()
    modifies db
    ensures db.Valid()
    ensures db.timeline == old(db.timeline) + PhaseRows(projectId, phases, today, NextId(old(db.timeline), TimelineIdOf), |phases|)
    ensures NextId(db.timeline, TimelineIdOf) == NextId(old(db.timeline), TimelineIdOf) + |phases|
    ensures db.clients == old(db.clients) && db.projects == old(db.projects) && db.tasks == old(db.tasks)
    ensures db.checklist == old(db.checklist) && db.activities == old(db.activities)
    ensures db.files == old(db.files) && db.onDisk == old(db.onDisk)
  {
    var first := NextId(db.timeline, TimelineIdOf);
    for idx := 0 to |phases|
      invariant db.Valid()
      invariant db.timeline == old(db.timeline) + PhaseRows(projectId, phases, today, first, idx)
      invariant NextId(db.timeline, TimelineIdOf) == first + idx
      invariant db.clients == old(db.clients) && db.projects == old(db.projects) && db.tasks == old(db.tasks)
      invariant db.checklist == old(db.checklist) && db.activities == old(db.activities)
      invariant db.files == old(db.files) && db.onDisk == old(db.onDisk)
    {
      AddPhase(db, projectId, phases, today, first, idx, old(db.timeline));
    }
  }

  /** One turn of the loop in `AddPhases`. */
  method AddPhase(db: Database, projectId: int, phases: seq<(string, int, int)>, today: int, first: int, idx: nat, ghost base: seq<TimelineItem>)
    requires db.Valid() && idx < |phases|
    requires db.timeline == base + PhaseRows(projectId, phases, today, first, idx)
    requires NextId(db.timeline, TimelineIdOf) == first + idx
    modifies db
    ensures db.Valid()
    ensures db.timeline == base + PhaseRows(projectId, phases, today, first, idx + 1)
    ensures NextId(db.timeline, TimelineIdOf) == first + idx + 1
    ensures db.clients == old(db.clients) && db.projects == old(db.projects) && db.tasks == old(db.tasks)
    ensures db.checklist == old(db.checklist) && db.activities == old(db.activities)
    ensures db.files == old(db.files) && db.onDisk == old(db.onDisk)
  {
    var (phase, s, e) := phases[idx];
    var item := TimelineItem(NextId(db.timeline, TimelineIdOf), projectId, phase, today + s, today + e, "Phase");
    AppendTimeline(db, item);
    AppendTail(base, PhaseRows(projectId, phases, today, first, idx), [item]);
  }

  /** `add_timeline(p, close_in_days)`: the phases, then the milestone on the closing day. */
  method AddTimeline(db: Database, projectId: int, closeInDays: int, today: int)
    requires db.Valid()
    modifies db
    ensures db.Valid()
    ensures db.timeline == old(db.timeline) + TimelineRows(projectId, closeInDays, today, NextId(old(db.timeline), TimelineIdOf))
    ensures NextId(db.timeline, TimelineIdOf) == NextId(old(db.timeline), TimelineIdOf) + 6
    ensures db.clients == old(db.clients) && db.projects == old(db.projects) && db.tasks == old(db.tasks)
    ensures db.checklist == old(db.checklist) && db.activities == old(db.activities)
    ensures db.files == old(db.files) && db.onDisk == old(db.onDisk)
  {
    AddPhases(db, projectId, Phases, today);
    var close := today + closeInDays;
    var milestone := TimelineItem(NextId(db.timeline, TimelineIdOf), projectId, "Target completion", close, close, "Milestone");
    AppendTimeline(db, milestone);
  }

  /** `today + timedelta(days=due_in) if due_in is not None else None`. */
  function SeedDue(today: int, dueIn: Option<int>): Option<int>
  {
    if dueIn.Some? then Some(today + dueIn.value) else None
  }

  /**
   * A seeded task has a due date exactly when it was given an offset, and
   * the client then counts that many days until it: negative offsets are
   * overdue on the day of seeding, zero is due today.
   */
  lemma SeedDueMeaning(today: int, dueIn: Option<int>)
    ensures SeedDue(today, dueIn).Some? <==> dueIn.Some?
    ensures dueIn.Some? ==> DaysUntil(SeedDue(today, dueIn).value, today) == dueIn.value
    ensures dueIn.Some? ==> (SeedDue(today, dueIn).value < today <==> dueIn.value < 0)
  {
  }

  /**
   * `created_at=today - timedelta(days=days_ago) if days_ago > 0 else None`:
   * a positive age stores that day's midnight; otherwise the column default,
   * the current time, applies.
   */
  function SeedStamp(daysAgo: int, today: int, now: int): int
  {
    if daysAgo > 0 then (today - daysAgo) * SecondsPerDay else now
  }

  /**
   * Stamps of past days fall on a midnight, on that day; and while the
   * seeder runs on `today`, an older activity always has an earlier stamp,
   * so the feed lists the seeded activities from the youngest age down.
   */
  lemma SeedStampMeaning(today: int, now: int)
    ensures forall d :: d > 0 ==>
      SeedStamp(d, today, now) % SecondsPerDay == 0 && SeedStamp(d, today, now) / SecondsPerDay == today - d
    ensures forall d :: d <= 0 ==> SeedStamp(d, today, now) == now
    ensures today * SecondsPerDay <= now ==>
      forall d1, d2 :: 0 <= d1 < d2 ==> SeedStamp(d2, today, now) < SeedStamp(d1, today, now)
  {
  }

  /** `add_task`: the task under the next key with its due date relative to today. */
  method AddTask(db: Database, projectId: int, title: string, status: string, assignee: string, dueIn: Option<int>,
      priority: string, tags: Option<string>, description: Option<string>, today: int)
    requires db.Valid()
    modifies db
    ensures db.Valid()
    ensures db.tasks == old(db.tasks) + [Task(NextId(old(db.tasks), TaskIdOf), projectId, title, status, assignee,
      SeedDue(today, dueIn), priority, tags, description)]
    ensures NextId(db.tasks, TaskIdOf) == NextId(old(db.tasks), TaskIdOf) + 1
    ensures db.clients == old(db.clients) && db.projects == old(db.projects) && db.checklist == old(db.checklist)
    ensures db.timeline == old(db.timeline) && db.activities == old(db.activities)
    ensures db.files == old(db.files) && db.onDisk == old(db.onDisk)
  {
    var due := if dueIn.Some? then Some(today + dueIn.value) else None;
    var t := Task(NextId(db.tasks, TaskIdOf), projectId, title, status, assignee, due, priority, tags, description);
    InsertKeepsUnique(db.tasks, TaskIdOf, t);
    NextIdAfterInsert(db.tasks, TaskIdOf, t);
    db.tasks := db.tasks + [t];
  }

  /** `add_activity`: the activity under the next key, stamped by `SeedStamp`. */
  method AddActivity(db: Database, projectId: int, actor: string, verb: string, detail: string,
      daysAgo: int, today: int, now: int)
    requires db.Valid()
    modifies db
    ensures db.Valid()
    ensures db.activities == old(db.activities) + [Activity(NextId(old(db.activities), ActivityIdOf), projectId,
      SeedStamp(daysAgo, today, now), actor, verb, Some(detail))]
    ensures NextId(db.activities, ActivityIdOf) == NextId(old(db.activities), ActivityIdOf) + 1
    ensures db.clients == old(db.clients) && db.projects == old(db.projects) && db.tasks == old(db.tasks)
    ensures db.checklist == old(db.checklist) && db.timeline == old(db.timeline)
    ensures db.files == old(db.files) && db.onDisk == old(db.onDisk)
  {
    var stamp := if daysAgo > 0 then (today - daysAgo) * SecondsPerDay else now;
    var a := Activity(NextId(db.activities, ActivityIdOf), projectId, stamp, actor, verb, Some(detail));
    InsertKeepsUnique(db.activities, ActivityIdOf, a);
    NextIdAfterInsert(db.activities, ActivityIdOf, a);
    db.activities := db.activities + [a];
  }

  /** Where a seeded file's row says its content is; nothing is written there. */
  function SeedPath(filename: string): string
  {
    "seed/" + filename
  }

  /** An upload's path never names a seeded file's, so uploads never make seeded content appear. */
  lemma UploadNeverSeedPath(projectId: int, safe: string, filename: string)
    ensures UploadPath(projectId, safe) != SeedPath(filename)
  {
    assert UploadPath(projectId, safe)[0] == 'u';
    assert SeedPath(filename)[0] == 's';
  }

  /**
   * A demo file: metadata only.  Its row is added under the next key with
   * the upload time defaulting to now; no content is written, so while no
   * file sits at its path, downloading it gives the "seed metadata only" 404.
   */
  method AddSeedFile(db: Database, projectId: int, filename: string, mimeType: string, uploader: string, now: int)
    returns (f: FileItem)
    requires db.Valid()
    modifies db
    ensures db.Valid()
    ensures f == FileItem(NextId(old(db.files), FileIdOf), projectId, filename, SeedPath(filename), Some(mimeType), now, uploader)
    ensures db.files == old(db.files) + [f]
    ensures NextId(db.files, FileIdOf) == f.id + 1
    ensures SeedPath(filename) !in db.onDisk ==> Download(db.files, db.onDisk, f.id) == Err(404, NoContent)
    ensures db.clients == old(db.clients) && db.projects == old(db.projects) && db.tasks == old(db.tasks)
    ensures db.checklist == old(db.checklist) && db.timeline == old(db.timeline)
    ensures db.activities == old(db.activities) && db.onDisk == old(db.onDisk)
  {
    f := FileItem(NextId(db.files, FileIdOf), projectId, filename, "seed/" + filename, Some(mimeType), now, uploader);
    InsertKeepsUnique(db.files, FileIdOf, f);
    NextIdAfterInsert(db.files, FileIdOf, f);
    db.files := db.files + [f];
    LastRowNotOnDisk(db.files, db.onDisk);
  }

  /** The newest row of a table with unique keys cannot be downloaded while its file is missing. */
  lemma LastRowNotOnDisk(files: seq<FileItem>, onDisk: set<string>)
    requires UniqueIds(files, FileIdOf) && files != []
    ensures var f := files[|files| - 1];
      f.storedPath !in onDisk ==> Download(files, onDisk, f.id) == Err(404, NoContent)
  {
    LocateUnique(files, FileIdOf, files[|files| - 1].id, |files| - 1);
  }

  /** A project of the demo plan; `client` is the position of its client in the plan. */
  datatype ProjectSeed = ProjectSeed(
    title: string, transactionType: string, location: string, status: string, risk: string, bgColor: string,
    startIn: int, closeIn: int, client: nat)

  /** A task of the demo plan; `project` is the position of its project in the plan. */
  datatype TaskSeed = TaskSeed(
    project: nat, title: string, status: string, assignee: string, dueIn: Option<int>,
    priority: string, tags: Option<string>, description: Option<string>)

  datatype ActivitySeed = ActivitySeed(project: nat, actor: string, verb: string, detail: string, daysAgo: int)

  datatype FileSeed = FileSeed(project: nat, filename: string, mimeType: string, uploader: string)

  /** The demo content `seed_if_empty` writes, in the order it writes it. */
  datatype SeedPlan = SeedPlan(
    clients: seq<string>,
    projects: seq<ProjectSeed>,
    tasks: seq<TaskSeed>,
    activities: seq<ActivitySeed>,
    files: seq<FileSeed>)

  /** The client row for plan client `idx`. */
  function ClientRows(names: seq<string>, firstId: int, n: nat): (r: seq<Client>)
    requires n <= |names|
    ensures |r| == n && forall i :: 0 <= i < n ==> r[i].id == firstId + i
  {
    if n == 0 then [] else ClientRows(names, firstId, n - 1) + [Client(firstId + n - 1, names[n - 1])]
  }

  /** The project row for a plan project: its dates relative to today, its client by position. */
  function ProjectRow(id: int, ps: ProjectSeed, names: seq<string>, firstClientId: int, today: int): Project
  {
    Project(id, ps.title, ps.transactionType, ps.location, ps.status, ps.risk, ps.bgColor,
      Some(today + ps.startIn), Some(today + ps.closeIn), Some(firstClientId + ps.client),
      if ps.client < |names| then Some(Client(firstClientId + ps.client, names[ps.client])) else None)
  }

  function ProjectRows(plan: SeedPlan, firstClientId: int, today: int, firstId: int, n: nat): (r: seq<Project>)
    requires n <= |plan.projects|
    ensures |r| == n && forall i :: 0 <= i < n ==> r[i].id == firstId + i
  {
    if n == 0 then []
    else ProjectRows(plan, firstClientId, today, firstId, n - 1) +
         [ProjectRow(firstId + n - 1, plan.projects[n - 1], plan.clients, firstClientId, today)]
  }

  function TaskRow(id: int, t: TaskSeed, firstProjectId: int, today: int): Task
  {
    Task(id, firstProjectId + t.project, t.title, t.status, t.assignee, SeedDue(today, t.dueIn), t.priority, t.tags, t.description)
  }

  function TaskRows(tasks: seq<TaskSeed>, firstProjectId: int, today: int, firstId: int, n: nat): (r: seq<Task>)
    requires n <= |tasks|
    ensures |r| == n && forall i :: 0 <= i < n ==> r[i].id == firstId + i
  {
    if n == 0 then []
    else TaskRows(tasks, firstProjectId, today, firstId, n - 1) + [TaskRow(firstId + n - 1, tasks[n - 1], firstProjectId, today)]
  }

  function ActivityRow(id: int, a: ActivitySeed, firstProjectId: int, today: int, now: int): Activity
  {
    Activity(id, firstProjectId + a.project, SeedStamp(a.daysAgo, today, now), a.actor, a.verb, Some(a.detail))
  }

  function ActivityRows(acts: seq<ActivitySeed>, firstProjectId: int, today: int, now: int, firstId: int, n: nat): (r: seq<Activity>)
    requires n <= |acts|
    ensures |r| == n && forall i :: 0 <= i < n ==> r[i].id == firstId + i
  {
    if n == 0 then []
    else ActivityRows(acts, firstProjectId, today, now, firstId, n - 1) + [ActivityRow(firstId + n - 1, acts[n - 1], firstProjectId, today, now)]
  }

  /** Row `i` of the activity rows is plan activity `i` under key `firstId + i`. */
  lemma {:induction false} ActivityRowsAt(acts: seq<ActivitySeed>, firstProjectId: int, today: int, now: int, firstId: int, n: nat)
    requires n <= |acts|
    ensures forall i :: 0 <= i < n ==>
      ActivityRows(acts, firstProjectId, today, now, firstId, n)[i] == ActivityRow(firstId + i, acts[i], firstProjectId, today, now)
  {
    if n > 0 {
      ActivityRowsAt(acts, firstProjectId, today, now, firstId, n - 1);
    }
  }

  /** The marker events that close the seed: one "Seeded demo project" by "System" per project, in project order. */
  function MarkerActivities(projects: seq<ProjectSeed>): seq<ActivitySeed>
  {
    seq(|projects|, i requires 0 <= i < |projects| => ActivitySeed(i, "System", "Seeded demo project", projects[i].title, 0))
  }

  /**
   * After the plan's own activities come the markers: the activity row
   * `|acts| + k` belongs to project `k`, is by "System", reads "Seeded demo
   * project" with the project's title as its detail, and carries the
   * current time.
   */
  lemma SeededMarkers(plan: SeedPlan, today: int, now: int, firstId: int)
    ensures var acts := plan.activities + MarkerActivities(plan.projects);
      var rows := ActivityRows(acts, 1, today, now, firstId, |acts|);
      forall k :: 0 <= k < |plan.projects| ==>
        var r := rows[|plan.activities| + k];
        && r.id == firstId + |plan.activities| + k
        && r.projectId == 1 + k && r.actor == "System" && r.verb == "Seeded demo project"
        && r.detail == Some(plan.projects[k].title) && r.createdAt == now
  {
    var acts := plan.activities + MarkerActivities(plan.projects);
    ActivityRowsAt(acts, 1, today, now, firstId, |acts|);
    forall k | 0 <= k < |plan.projects|
      ensures acts[|plan.activities| + k] == ActivitySeed(k, "System", "Seeded demo project", plan.projects[k].title, 0)
    {
      MarkerAt(plan, k);
    }
  }

  lemma MarkerAt(plan: SeedPlan, k: int)
    requires 0 <= k < |plan.projects|
    ensures (plan.activities + MarkerActivities(plan.projects))[|plan.activities| + k]
         == ActivitySeed(k, "System", "Seeded demo project", plan.projects[k].title, 0)
  {
    assert MarkerActivities(plan.projects)[k] == ActivitySeed(k, "System", "Seeded demo project", plan.projects[k].title, 0);
  }

  function FileRow(id: int, f: FileSeed, firstProjectId: int, now: int): FileItem
  {
    FileItem(id, firstProjectId + f.project, f.filename, SeedPath(f.filename), Some(f.mimeType), now, f.uploader)
  }

  function FileRows(files: seq<FileSeed>, firstProjectId: int, now: int, firstId: int, n: nat): (r: seq<FileItem>)
    requires n <= |files|
    ensures |r| == n && forall i :: 0 <= i < n ==> r[i].id == firstId + i
  {
    if n == 0 then []
    else FileRows(files, firstProjectId, now, firstId, n - 1) + [FileRow(firstId + n - 1, files[n - 1], firstProjectId, now)]
  }

  /** The timelines of the first `n` seeded projects, one after the other. */
  function AllTimelines(projects: seq<Project>, plan: SeedPlan, today: int, firstId: int, n: nat): seq<TimelineItem>
    requires n <= |projects| && n <= |plan.projects|
  {
    if n == 0 then []
    else AllTimelines(projects, plan, today, firstId, n - 1) +
         TimelineRows(projects[n - 1].id, plan.projects[n - 1].closeIn, today, firstId + 6 * (n - 1))
  }

  /** `table` after `add_checklist` has run for the first `n` seeded projects, in order. */
  function WithChecklists(table: seq<ChecklistItem>, projects: seq<Project>, today: int, n: nat): seq<ChecklistItem>
    requires n <= |projects|
  {
    if n == 0 then table
    else (var before := WithChecklists(table, projects, today, n - 1);
      before + ChecklistRows(projects[n - 1], today, NextId(before, ChecklistIdOf)))
  }

  /** The clients, in plan order, under consecutive keys. */
  method SeedClients(db: Database, names: seq<string>)
    requires db.Valid()
    modifies db
    ensures db.Valid()
    ensures db.clients == old(db.clients) + ClientRows(names, NextId(old(db.clients), ClientIdOf), |names|)
    ensures db.projects == old(db.projects) && db.tasks == old(db.tasks) && db.checklist == old(db.checklist)
    ensures db.timeline == old(db.timeline) && db.activities == old(db.activities)
    ensures db.files == old(db.files) && db.onDisk == old(db.onDisk)
  {
    var first := NextId(db.clients, ClientIdOf);
    for k := 0 to |names|
      invariant db.Valid()
      invariant db.clients == old(db.clients) + ClientRows(names, first, k)
      invariant NextId(db.clients, ClientIdOf) == first + k
      invariant db.projects == old(db.projects) && db.tasks == old(db.tasks) && db.checklist == old(db.checklist)
      invariant db.timeline == old(db.timeline) && db.activities == old(db.activities)
      invariant db.files == old(db.files) && db.onDisk == old(db.onDisk)
    {
      SeedClient(db, names, first, k, old(db.clients));
    }
  }

  /** One turn of the loop in `SeedClients`. */
  method SeedClient(db: Database, names: seq<string>, first: int, k: nat, ghost base: seq<Client>)
    requires db.Valid() && k < |names|
    requires db.clients == base + ClientRows(names, first, k)
    requires NextId(db.clients, ClientIdOf) == first + k
    modifies db
    ensures db.Valid()
    ensures db.clients == base + ClientRows(names, first, k + 1)
    ensures NextId(db.clients, ClientIdOf) == first + (k + 1)
    ensures db.projects == old(db.projects) && db.tasks == old(db.tasks) && db.checklist == old(db.checklist)
    ensures db.timeline == old(db.timeline) && db.activities == old(db.activities)
    ensures db.files == old(db.files) && db.onDisk == old(db.onDisk)
  {
    var c := Client(NextId(db.clients, ClientIdOf), names[k]);
    InsertKeepsUnique(db.clients, ClientIdOf, c);
    NextIdAfterInsert(db.clients, ClientIdOf, c);
    db.clients := db.clients + [c];
    AppendTail(base, ClientRows(names, first, k), db.clients[|db.clients| - 1..]);
  }


  /** `db.add(Project(...))`: one project row under the next key. */
  method AppendProject(db: Database, p: Project)
    requires db.Valid() && p.id == NextId(db.projects, ProjectIdOf)
    modifies db
    ensures db.Valid()
    ensures db.projects == old(db.projects) + [p]
    ensures NextId(db.projects, ProjectIdOf) == p.id + 1
    ensures db.clients == old(db.clients) && db.tasks == old(db.tasks) && db.checklist == old(db.checklist)
    ensures db.timeline == old(db.timeline) && db.activities == old(db.activities)
    ensures db.files == old(db.files) && db.onDisk == old(db.onDisk)
  {
    InsertKeepsUnique(db.projects, ProjectIdOf, p);
    NextIdAfterInsert(db.projects, ProjectIdOf, p);
    db.projects := db.projects + [p];
  }

  /** The projects, in plan order, under consecutive keys, each linked to its client. */
  method SeedProjects(db: Database, plan: SeedPlan, firstClientId: int, today: int)
    requires db.Valid()
    modifies db
    ensures db.Valid()
    ensures db.projects == old(db.projects) + ProjectRows(plan, firstClientId, today, NextId(old(db.projects), ProjectIdOf), |plan.projects|)
    ensures db.clients == old(db.clients) && db.tasks == old(db.tasks) && db.checklist == old(db.checklist)
    ensures db.timeline == old(db.timeline) && db.activities == old(db.activities)
    ensures db.files == old(db.files) && db.onDisk == old(db.onDisk)
  {
    var first := NextId(db.projects, ProjectIdOf);
    for k := 0 to |plan.projects|
      invariant db.Valid()
      invariant db.projects == old(db.projects) + ProjectRows(plan, firstClientId, today, first, k)
      invariant NextId(db.projects, ProjectIdOf) == first + k
      invariant db.clients == old(db.clients) && db.tasks == old(db.tasks) && db.checklist == old(db.checklist)
      invariant db.timeline == old(db.timeline) && db.activities == old(db.activities)
      invariant db.files == old(db.files) && db.onDisk == old(db.onDisk)
    {
      SeedProject(db, plan, firstClientId, today, first, k, old(db.projects));
    }
  }

  /** One turn of the loop in `SeedProjects`. */
  method SeedProject(db: Database, plan: SeedPlan, firstClientId: int, today: int, first: int, k: nat, ghost base: seq<Project>)
    requires db.Valid() && k < |plan.projects|
    requires db.projects == base + ProjectRows(plan, firstClientId, today, first, k)
    requires NextId(db.projects, ProjectIdOf) == first + k
    modifies db
    ensures db.Valid()
    ensures db.projects == base + ProjectRows(plan, firstClientId, today, first, k + 1)
    ensures NextId(db.projects, ProjectIdOf) == first + (k + 1)
    ensures db.clients == old(db.clients) && db.tasks == old(db.tasks) && db.checklist == old(db.checklist)
    ensures db.timeline == old(db.timeline) && db.activities == old(db.activities)
    ensures db.files == old(db.files) && db.onDisk == old(db.onDisk)
  {
    AppendProject(db, ProjectRow(NextId(db.projects, ProjectIdOf), plan.projects[k], plan.clients, firstClientId, today));
    AppendTail(base, ProjectRows(plan, firstClientId, today, first, k), db.projects[|db.projects| - 1..]);
  }


  /** `add_task` for every task of the plan, in plan order. */
  method SeedTasks(db: Database, tasks: seq<TaskSeed>, firstProjectId: int, today: int)
    requires db.Valid()
    modifies db
    ensures db.Valid()
    ensures db.tasks == old(db.tasks) + TaskRows(tasks, firstProjectId, today, NextId(old(db.tasks), TaskIdOf), |tasks|)
    ensures db.clients == old(db.clients) && db.projects == old(db.projects) && db.checklist == old(db.checklist)
    ensures db.timeline == old(db.timeline) && db.activities == old(db.activities)
    ensures db.files == old(db.files) && db.onDisk == old(db.onDisk)
  {
    var first := NextId(db.tasks, TaskIdOf);
    for k := 0 to |tasks|
      invariant db.Valid()
      invariant db.tasks == old(db.tasks) + TaskRows(tasks, firstProjectId, today, first, k)
      invariant NextId(db.tasks, TaskIdOf) == first + k
      invariant db.clients == old(db.clients) && db.projects == old(db.projects) && db.checklist == old(db.checklist)
      invariant db.timeline == old(db.timeline) && db.activities == old(db.activities)
      invariant db.files == old(db.files) && db.onDisk == old(db.onDisk)
    {
      SeedTask(db, tasks, firstProjectId, today, first, k, old(db.tasks));
    }
  }

  /** One turn of the loop in `SeedTasks`. */
  method SeedTask(db: Database, tasks: seq<TaskSeed>, firstProjectId: int, today: int, first: int, k: nat, ghost base: seq<Task>)
    requires db.Valid() && k < |tasks|
    requires db.tasks == base + TaskRows(tasks, firstProjectId, today, first, k)
    requires NextId(db.tasks, TaskIdOf) == first + k
    modifies db
    ensures db.Valid()
    ensures db.tasks == base + TaskRows(tasks, firstProjectId, today, first, k + 1)
    ensures NextId(db.tasks, TaskIdOf) == first + (k + 1)
    ensures db.clients == old(db.clients) && db.projects == old(db.projects) && db.checklist == old(db.checklist)
    ensures db.timeline == old(db.timeline) && db.activities == old(db.activities)
    ensures db.files == old(db.files) && db.onDisk == old(db.onDisk)
  {
    var t := tasks[k];
    AddTask(db, firstProjectId + t.project, t.title, t.status, t.assignee, t.dueIn, t.priority, t.tags, t.description, today);
    AppendTail(base, TaskRows(tasks, firstProjectId, today, first, k), db.tasks[|db.tasks| - 1..]);
  }


  /** `add_timeline(p, close_in_days)` for every seeded project, in order. */
  method SeedTimelines(db: Database, projects: seq<Project>, plan: SeedPlan, today: int)
    requires db.Valid() && |projects| == |plan.projects|
    modifies db
    ensures db.Valid()
    ensures db.timeline == old(db.timeline) + AllTimelines(projects, plan, today, NextId(old(db.timeline), TimelineIdOf), |projects|)
    ensures db.clients == old(db.clients) && db.projects == old(db.projects) && db.tasks == old(db.tasks)
    ensures db.checklist == old(db.checklist) && db.activities == old(db.activities)
    ensures db.files == old(db.files) && db.onDisk == old(db.onDisk)
  {
    var first := NextId(db.timeline, TimelineIdOf);
    for k := 0 to |projects|
      invariant db.Valid()
      invariant db.timeline == old(db.timeline) + AllTimelines(projects, plan, today, first, k)
      invariant NextId(db.timeline, TimelineIdOf) == first + 6 * k
      invariant db.clients == old(db.clients) && db.projects == old(db.projects) && db.tasks == old(db.tasks)
      invariant db.checklist == old(db.checklist) && db.activities == old(db.activities)
      invariant db.files == old(db.files) && db.onDisk == old(db.onDisk)
    {
      SeedTimeline(db, projects, plan, today, first, k, old(db.timeline));
    }
  }

  /** One turn of the loop in `SeedTimelines`. */
  method SeedTimeline(db: Database, projects: seq<Project>, plan: SeedPlan, today: int, first: int, k: nat, ghost base: seq<TimelineItem>)
    requires db.Valid() && k < |projects| && |projects| == |plan.projects|
    requires db.timeline == base + AllTimelines(projects, plan, today, first, k)
    requires NextId(db.timeline, TimelineIdOf) == first + 6 * k
    modifies db
    ensures db.Valid()
    ensures db.timeline == base + AllTimelines(projects, plan, today, first, k + 1)
    ensures NextId(db.timeline, TimelineIdOf) == first + 6 * (k + 1)
    ensures db.clients == old(db.clients) && db.projects == old(db.projects) && db.tasks == old(db.tasks)
    ensures db.checklist == old(db.checklist) && db.activities == old(db.activities)
    ensures db.files == old(db.files) && db.onDisk == old(db.onDisk)
  {
    AddTimeline(db, projects[k].id, plan.projects[k].closeIn, today);
    AppendTail(base, AllTimelines(projects, plan, today, first, k), db.timeline[|db.timeline| - 6..]);
  }


  /** `add_checklist(p)` for every seeded project, in order. */
  method SeedChecklists(db: Database, projects: seq<Project>, today: int)
    requires db.Valid()
    modifies db
    ensures db.Valid()
    ensures db.checklist == WithChecklists(old(db.checklist), projects, today, |projects|)
    ensures db.clients == old(db.clients) && db.projects == old(db.projects) && db.tasks == old(db.tasks)
    ensures db.timeline == old(db.timeline) && db.activities == old(db.activities)
    ensures db.files == old(db.files) && db.onDisk == old(db.onDisk)
  {
    for k := 0 to |projects|
      invariant db.Valid()
      invariant db.checklist == WithChecklists(old(db.checklist), projects, today, k)
      invariant db.clients == old(db.clients) && db.projects == old(db.projects) && db.tasks == old(db.tasks)
      invariant db.timeline == old(db.timeline) && db.activities == old(db.activities)
      invariant db.files == old(db.files) && db.onDisk == old(db.onDisk)
    {
      AddChecklist(db, projects[k], today);
    }
  }

  /** `add_activity` for every activity of the plan, in plan order. */
  method SeedActivities(db: Database, acts: seq<ActivitySeed>, firstProjectId: int, today: int, now: int)
    requires db.Valid()
    modifies db
    ensures db.Valid()
    ensures db.activities == old(db.activities) + ActivityRows(acts, firstProjectId, today, now, NextId(old(db.activities), ActivityIdOf), |acts|)
    ensures db.clients == old(db.clients) && db.projects == old(db.projects) && db.tasks == old(db.tasks)
    ensures db.checklist == old(db.checklist) && db.timeline == old(db.timeline)
    ensures db.files == old(db.files) && db.onDisk == old(db.onDisk)
  {
    var first := NextId(db.activities, ActivityIdOf);
    for k := 0 to |acts|
      invariant db.Valid()
      invariant db.activities == old(db.activities) + ActivityRows(acts, firstProjectId, today, now, first, k)
      invariant NextId(db.activities, ActivityIdOf) == first + k
      invariant db.clients == old(db.clients) && db.projects == old(db.projects) && db.tasks == old(db.tasks)
      invariant db.checklist == old(db.checklist) && db.timeline == old(db.timeline)
      invariant db.files == old(db.files) && db.onDisk == old(db.onDisk)
    {
      SeedActivity(db, acts, firstProjectId, today, now, first, k, old(db.activities));
    }
  }

  /** One turn of the loop in `SeedActivities`. */
  method SeedActivity(db: Database, acts: seq<ActivitySeed>, firstProjectId: int, today: int, now: int, first: int, k: nat, ghost base: seq<Activity>)
    requires db.Valid() && k < |acts|
    requires db.activities == base + ActivityRows(acts, firstProjectId, today, now, first, k)
    requires NextId(db.activities, ActivityIdOf) == first + k
    modifies db
    ensures db.Valid()
    ensures db.activities == base + ActivityRows(acts, firstProjectId, today, now, first, k + 1)
    ensures NextId(db.activities, ActivityIdOf) == first + (k + 1)
    ensures db.clients == old(db.clients) && db.projects == old(db.projects) && db.tasks == old(db.tasks)
    ensures db.checklist == old(db.checklist) && db.timeline == old(db.timeline)
    ensures db.files == old(db.files) && db.onDisk == old(db.onDisk)
  {
    var a := acts[k];
    AddActivity(db, firstProjectId + a.project, a.actor, a.verb, a.detail, a.daysAgo, today, now);
    AppendTail(base, ActivityRows(acts, firstProjectId, today, now, first, k), db.activities[|db.activities| - 1..]);
  }


  /** The demo files' metadata, in plan order; nothing is written to disk. */
  method SeedFiles(db: Database, files: seq<FileSeed>, firstProjectId: int, now: int)
    requires db.Valid()
    modifies db
    ensures db.Valid()
    ensures db.files == old(db.files) + FileRows(files, firstProjectId, now, NextId(old(db.files), FileIdOf), |files|)
    ensures db.clients == old(db.clients) && db.projects == old(db.projects) && db.tasks == old(db.tasks)
    ensures db.checklist == old(db.checklist) && db.timeline == old(db.timeline)
    ensures db.activities == old(db.activities) && db.onDisk == old(db.onDisk)
  {
    var first := NextId(db.files, FileIdOf);
    for k := 0 to |files|
      invariant db.Valid()
      invariant db.files == old(db.files) + FileRows(files, firstProjectId, now, first, k)
      invariant NextId(db.files, FileIdOf) == first + k
      invariant db.clients == old(db.clients) && db.projects == old(db.projects) && db.tasks == old(db.tasks)
      invariant db.checklist == old(db.checklist) && db.timeline == old(db.timeline)
      invariant db.activities == old(db.activities) && db.onDisk == old(db.onDisk)
    {
      SeedFile(db, files, firstProjectId, now, first, k, old(db.files));
    }
  }

  /** One turn of the loop in `SeedFiles`. */
  method SeedFile(db: Database, files: seq<FileSeed>, firstProjectId: int, now: int, first: int, k: nat, ghost base: seq<FileItem>)
    requires db.Valid() && k < |files|
    requires db.files == base + FileRows(files, firstProjectId, now, first, k)
    requires NextId(db.files, FileIdOf) == first + k
    modifies db
    ensures db.Valid()
    ensures db.files == base + FileRows(files, firstProjectId, now, first, k + 1)
    ensures NextId(db.files, FileIdOf) == first + (k + 1)
    ensures db.clients == old(db.clients) && db.projects == old(db.projects) && db.tasks == old(db.tasks)
    ensures db.checklist == old(db.checklist) && db.timeline == old(db.timeline)
    ensures db.activities == old(db.activities) && db.onDisk == old(db.onDisk)
  {
    var f := files[k];
    var row := AddSeedFile(db, firstProjectId + f.project, f.filename, f.mimeType, f.uploader, now);
    AppendTail(base, FileRows(files, firstProjectId, now, first, k), db.files[|db.files| - 1..]);
  }


  /**
   * `seed_if_empty`: nothing happens when any project exists.  Otherwise
   * the plan's clients and projects go in (the projects under keys 1, 2,
   * ...), then the tasks, then every project's timeline, then every
   * project's checklist, then the activities and the file metadata, and
   * last one marker activity per project.
   */
  method SeedIfEmpty(db: Database, plan: SeedPlan, today: int, now: int) returns (seeded: bool)
    requires db.Valid()
    modifies db
    ensures db.Valid()
    ensures seeded <==> old(db.projects) == []
    ensures !seeded ==> unchanged(db)
    ensures seeded ==>
      var firstClient := NextId(old(db.clients), ClientIdOf);
      && db.clients == old(db.clients) + ClientRows(plan.clients, firstClient, |plan.clients|)
      && db.projects == ProjectRows(plan, firstClient, today, 1, |plan.projects|)
      && db.tasks == old(db.tasks) + TaskRows(plan.tasks, 1, today, NextId(old(db.tasks), TaskIdOf), |plan.tasks|)
      && db.timeline == old(db.timeline) + AllTimelines(db.projects, plan, today, NextId(old(db.timeline), TimelineIdOf), |plan.projects|)
      && db.checklist == WithChecklists(old(db.checklist), db.projects, today, |db.projects|)
      && (var acts := plan.activities + MarkerActivities(plan.projects);
          db.activities == old(db.activities) + ActivityRows(acts, 1, today, now, NextId(old(db.activities), ActivityIdOf), |acts|))
      && db.files == old(db.files) + FileRows(plan.files, 1, now, NextId(old(db.files), FileIdOf), |plan.files|)
      && db.onDisk == old(db.onDisk)
  {
    if |db.projects| > 0 {
      return false;
    }
    var firstClient := NextId(db.clients, ClientIdOf);
    SeedClients(db, plan.clients);
    SeedProjects(db, plan, firstClient, today);
    assert NextId([], ProjectIdOf) == 1;
    SeedTasks(db, plan.tasks, 1, today);
    SeedTimelines(db, db.projects, plan, today);
    SeedChecklists(db, db.projects, today);
    SeedActivities(db, plan.activities + MarkerActivities(plan.projects), 1, today, now);
    SeedFiles(db, plan.files, 1, now);
    return true;
  }

  lemma {:induction false} AllTimelinesAt(projects: seq<Project>, plan: SeedPlan, today: int, firstId: int, n: nat)
    requires n <= |projects| && n <= |plan.projects|
    ensures var rows := AllTimelines(projects, plan, today, firstId, n);
      && |rows| == 6 * n
      && forall i :: 0 <= i < 6 * n ==>
        rows[i] == TimelineRows(projects[i / 6].id, plan.projects[i / 6].closeIn, today, firstId + 6 * (i / 6))[i % 6]
  {
    if n > 0 {
      AllTimelinesAt(projects, plan, today, firstId, n - 1);
      var m := n - 1;
      TimelineRowsMeaning(projects[m].id, plan.projects[m].closeIn, today, firstId + 6 * m);
      var rows := AllTimelines(projects, plan, today, firstId, n);
      forall i | 6 * m <= i < 6 * n
        ensures rows[i] == TimelineRows(projects[i / 6].id, plan.projects[i / 6].closeIn, today, firstId + 6 * (i / 6))[i % 6]
      {
        assert i / 6 == m && i % 6 == i - 6 * m;
      }
    }
  }

  /**
   * In the seeded timelines every project owns six consecutive rows (row `i`
   * belongs to project `i / 6`): five phases and then its milestone, which
   * falls on the project's own target close date.
   */
  lemma SeededMilestones(plan: SeedPlan, firstClient: int, today: int, firstId: int)
    ensures var projects := ProjectRows(plan, firstClient, today, 1, |plan.projects|);
      var rows := AllTimelines(projects, plan, today, firstId, |plan.projects|);
      && |rows| == 6 * |projects|
      && (forall i :: 0 <= i < |rows| ==> rows[i].projectId == projects[i / 6].id)
      && (forall i :: 0 <= i < |rows| ==> (rows[i].kind == "Milestone" <==> i % 6 == 5))
      && (forall i :: 0 <= i < |rows| && i % 6 == 5 ==> Some(rows[i].startDate) == projects[i / 6].targetCloseDate)
  {
    var projects := ProjectRows(plan, firstClient, today, 1, |plan.projects|);
    var n := |plan.projects|;
    var rows := AllTimelines(projects, plan, today, firstId, n);
    AllTimelinesAt(projects, plan, today, firstId, n);
    ProjectRowsAt(plan, firstClient, today, 1, n);
    forall i | 0 <= i < |rows|
      ensures rows[i].projectId == projects[i / 6].id
      ensures rows[i].kind == "Milestone" <==> i % 6 == 5
      ensures i % 6 == 5 ==> Some(rows[i].startDate) == projects[i / 6].targetCloseDate
    {
      var k := i / 6;
      TimelineRowsMeaning(projects[k].id, plan.projects[k].closeIn, today, firstId + 6 * k);
    }
  }

  lemma {:induction false} ProjectRowsAt(plan: SeedPlan, firstClientId: int, today: int, firstId: int, n: nat)
    requires n <= |plan.projects|
    ensures forall i :: 0 <= i < n ==>
      ProjectRows(plan, firstClientId, today, firstId, n)[i] == ProjectRow(firstId + i, plan.projects[i], plan.clients, firstClientId, today)
  {
    if n > 0 {
      ProjectRowsAt(plan, firstClientId, today, firstId, n - 1);
    }
  }
}
