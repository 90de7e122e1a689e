/**
 * The English and Spanish interface dictionaries, the `t` lookup with its
 * fall-back to the key, and the language state kept in storage under
 * "lawflow.lang.v1".
 */
module I18n {
  import opened Common

  datatype Lang = En | Es

  function LangName(l: Lang): string
  {
    if l == Es then "es" else "en"
  }

  /** The stored text is adopted only when it is exactly "en" or "es". */
  function ParseLang(raw: Option<string>): (r: Option<Lang>)
    ensures r == Some(En) <==> raw == Some("en")
    ensures r == Some(Es) <==> raw == Some("es")
  {
    if raw == Some("en") then Some(En)
    else if raw == Some("es") then Some(Es)
    else None
  }

  /** English: header, navigation and dashboard texts */
  const EnNavigation: map<string, string> := map[
    "tagline" := "Costa del Sol · Property Transactions",
    "activeMatter" := "Active matter",
    "workspace" := "Workspace",
    "timeline" := "Timeline",
    "taskTable" := "Task Table",
    "calendar" := "Calendar",
    "files" := "Files",
    "templates" := "Templates",
    "closingPack" := "Closing pack",
    "settings" := "Settings",
    "quickAdd" := "Quick add",
    "newProject" := "New project",
    "searchPlaceholder" := "Search tasks, files, checklist… (Ctrl+K)",
    "openTasks" := "Open tasks",
    "dueIn7" := "Due in 7 days",
    "overdue" := "Overdue",
    "completed" := "Completed",
    "work" := "Work",
    "spanishChecklist" := "Spanish conveyancing checklist",
    "activity" := "Activity",
    "downloadIcs" := "Download ICS",
    "fileRoom" := "File room",
    "upload" := "Upload",
    "dragDrop" := "Drag & drop files here to upload"
  ]

  /** English: files, templates, closing pack, wizard and search texts */
  const EnPanels: map<string, string> := map[
    "preview" := "Preview",
    "noFiles" := "No files yet. Upload something to see preview + search working.",
    "templatesByMunicipality" := "Templates by municipality",
    "municipality" := "Municipality",
    "closingPackGen" := "Closing pack generation",
    "generateZip" := "Generate ZIP",
    "readiness" := "Readiness",
    "ready" := "Ready",
    "notReady" := "Not ready",
    "wizard" := "Wizard",
    "step_notary" := "Notary",
    "step_taxes" := "Taxes",
    "step_registry" := "Registry",
    "step_utilities" := "Utilities",
    "suggestedMissing" := "Suggested missing items",
    "globalSearch" := "Global search",
    "noResults" := "No results. Try different keywords.",
    "demoTitle" := "Demo tips",
    "demoBody" := "Try: switch matters, open Files for drag-drop + preview, Templates for municipality rules, Closing pack wizard, and Ctrl+K global search.",
    "langEn" := "EN",
    "langEs" := "ES"
  ]

  /** English: the portfolio overview page texts */
  const EnOverview: map<string, string> := map[
    "overviewLink" := "Overview",
    "portfolioOverviewTitle" := "Portfolio Overview",
    "totalMatters" := "Total Matters",
    "activeProjects" := "Active",
    "closedProjects" := "Closed",
    "highRiskProjects" := "Risk",
    "searchProjectsPlaceholder" := "Search matters, locations, clients...",
    "allStatuses" := "All Statuses",
    "matterTableCol" := "Matter",
    "locationTableCol" := "Location",
    "statusTableCol" := "Status",
    "riskTableCol" := "Risk",
    "deadlineTableCol" := "Deadline",
    "clientTableCol" := "Client",
    "noProjectsMatch" := "No matters found matching your filters.",
    "showingProjects" := "Showing {count} projects"
  ]

  /** The English dictionary. */
  const English: Dictionary := Dictionary(EnNavigation, EnPanels, EnOverview)

  /** Spanish: header, navigation and dashboard texts */
  const EsNavigation: map<string, string> := map[
    "tagline" := "Costa del Sol · Transacciones inmobiliarias",
    "activeMatter" := "Asunto activo",
    "workspace" := "Espacio de trabajo",
    "timeline" := "Cronograma",
    "taskTable" := "Tabla de tareas",
    "calendar" := "Calendario",
    "files" := "Archivos",
    "templates" := "Plantillas",
    "closingPack" := "Paquete de cierre",
    "settings" := "Ajustes",
    "quickAdd" := "Añadir rápido",
    "newProject" := "Nuevo asunto",
    "searchPlaceholder" := "Buscar tareas, archivos, checklist… (Ctrl+K)",
    "openTasks" := "Tareas abiertas",
    "dueIn7" := "Vence en 7 días",
    "overdue" := "Atrasadas",
    "completed" := "Completadas",
    "work" := "Trabajo",
    "spanishChecklist" := "Checklist de compraventa (España)",
    "activity" := "Actividad",
    "downloadIcs" := "Descargar ICS",
    "fileRoom" := "Sala de archivos",
    "upload" := "Subir",
    "dragDrop" := "Arrastra y suelta archivos aquí para subirlos"
  ]

  /** Spanish: files, templates, closing pack, wizard and search texts */
  const EsPanels: map<string, string> := map[
    "preview" := "Vista previa",
    "noFiles" := "Aún no hay archivos. Sube alguno para ver la vista previa + búsqueda.",
    "templatesByMunicipality" := "Plantillas por municipio",
    "municipality" := "Municipio",
    "closingPackGen" := "Generación del paquete de cierre",
    "generateZip" := "Generar ZIP",
    "readiness" := "Preparación",
    "ready" := "Listo",
    "notReady" := "No listo",
    "wizard" := "Asistente",
    "step_notary" := "Notaría",
    "step_taxes" := "Impuestos",
    "step_registry" := "Registro",
    "step_utilities" := "Suministros",
    "suggestedMissing" := "Sugerencias de faltantes",
    "globalSearch" := "Búsqueda global",
    "noResults" := "Sin resultados. Prueba otras palabras.",
    "demoTitle" := "Consejos (demo)",
    "demoBody" := "Prueba: cambiar de asunto, abrir Archivos para arrastrar/soltar + vista previa, Plantillas por municipio, asistente de paquete de cierre y Ctrl+K para búsqueda global.",
    "langEn" := "EN",
    "langEs" := "ES"
  ]

  /** Spanish: the portfolio overview page texts */
  const EsOverview: map<string, string> := map[
    "overviewLink" := "Resumen",
    "portfolioOverviewTitle" := "Vista general de cartera",
    "totalMatters" := "Total Asuntos",
    "activeProjects" := "Activos",
    "closedProjects" := "Cerrados",
    "highRiskProjects" := "Riesgo",
    "searchProjectsPlaceholder" := "Buscar asuntos, ubicaciones, clientes...",
    "allStatuses" := "Todos los estados",
    "matterTableCol" := "Asunto",
    "locationTableCol" := "Ubicación",
    "statusTableCol" := "Estado",
    "riskTableCol" := "Riesgo",
    "deadlineTableCol" := "Fecha límite",
    "clientTableCol" := "Cliente",
    "noProjectsMatch" := "No se encontraron asuntos que coincidan con tus filtros.",
    "showingProjects" := "Mostrando {count} asuntos"
  ]

  /** The Spanish dictionary. */
  const Spanish: Dictionary := Dictionary(EsNavigation, EsPanels, EsOverview)

  /**
   * A dictionary of one language, kept as the three groups of its keys
   * (header and navigation, panels, overview pages). No key belongs to two
   * groups, so looking in each group in turn finds the one text of a key.
   */
  datatype Dictionary = Dictionary(navigation: map<string, string>, panels: map<string, string>, overview: map<string, string>)

  predicate Defines(d: Dictionary, k: string)
  {
    k in d.navigation || k in d.panels || k in d.overview
  }

  /** The text a dictionary gives a key it defines. */
  function Lookup(d: Dictionary, k: string): (r: string)
    requires Defines(d, k)
    ensures k in d.navigation ==> r == d.navigation[k]
    ensures k !in d.navigation && k in d.panels ==> r == d.panels[k]
    ensures k !in d.navigation && k !in d.panels ==> r == d.overview[k]
  {
    if k in d.navigation then d.navigation[k]
    else if k in d.panels then d.panels[k]
    else d.overview[k]
  }

  /** The dictionary of a language: Spanish for "es", English otherwise. */
  function Dict(l: Lang): (d: Dictionary)
    ensures l == Es ==> d == Spanish
    ensures l != Es ==> d == English
  {
    if l == Es then Spanish else English
  }

  /** `t(k)`: the dictionary's text, or the key itself when the key is missing. */
  function T(dict: Dictionary, k: string): (r: string)
    ensures Defines(dict, k) ==> r == Lookup(dict, k)
    ensures !Defines(dict, k) ==> r == k
  {
    if Defines(dict, k) then Lookup(dict, k) else k
  }

  /** Two dictionaries whose groups have the same keys define the same keys. */
  lemma SameGroupKeys(a: Dictionary, b: Dictionary, k: string)
    requires a.navigation.Keys == b.navigation.Keys
    requires a.panels.Keys == b.panels.Keys
    requires a.overview.Keys == b.overview.Keys
    ensures Defines(a, k) <==> Defines(b, k)
  {
    assert k in a.navigation <==> k in a.navigation.Keys;
    assert k in a.panels <==> k in a.panels.Keys;
    assert k in a.overview <==> k in a.overview.Keys;
  }

  lemma NavigationKeys()
    ensures EnNavigation.Keys == EsNavigation.Keys
  {
  }

  lemma PanelsKeys()
    ensures EnPanels.Keys == EsPanels.Keys
  {
  }

  lemma OverviewKeys()
    ensures EnOverview.Keys == EsOverview.Keys
  {
  }

  /** Both dictionaries define the same keys, so switching language never makes `t` fall back to a key. */
  lemma SwitchingKeepsCoverage(l1: Lang, l2: Lang, k: string)
    ensures Defines(Dict(l1), k) <==> Defines(Dict(l2), k)
  {
    NavigationKeys();
    PanelsKeys();
    OverviewKeys();
    SameGroupKeys(English, Spanish, k);
  }

  /**
   * The schedule view asks for "overdueCount" and "noOverdue", which neither
   * dictionary defines: in both languages `t` hands back the key itself.
   */
  lemma ScheduleBadgeKeysMissing(l: Lang)
    ensures T(Dict(l), "overdueCount") == "overdueCount" && T(Dict(l), "noOverdue") == "noOverdue"
  {
    if l == Es {
      EsNavigationLacksBadgeKeys();
      EsPanelsLacksBadgeKeys();
      EsOverviewLacksBadgeKeys();
    } else {
      EnNavigationLacksBadgeKeys();
      EnPanelsLacksBadgeKeys();
      EnOverviewLacksBadgeKeys();
    }
  }

  lemma EnNavigationLacksBadgeKeys()
    ensures "overdueCount" !in EnNavigation && "noOverdue" !in EnNavigation
  {
  }

  lemma EnPanelsLacksBadgeKeys()
    ensures "overdueCount" !in EnPanels && "noOverdue" !in EnPanels
  {
  }

  lemma EnOverviewLacksBadgeKeys()
    ensures "overdueCount" !in EnOverview && "noOverdue" !in EnOverview
  {
  }

  lemma EsNavigationLacksBadgeKeys()
    ensures "overdueCount" !in EsNavigation && "noOverdue" !in EsNavigation
  {
  }

  lemma EsPanelsLacksBadgeKeys()
    ensures "overdueCount" !in EsPanels && "noOverdue" !in EsPanels
  {
  }

  lemma EsOverviewLacksBadgeKeys()
    ensures "overdueCount" !in EsOverview && "noOverdue" !in EsOverview
  {
  }

  /** The "Showing {count} projects" line of the general overview, in both languages. */
  lemma ShowingProjectsTexts(l: Lang)
    ensures l == En ==> T(Dict(l), "showingProjects") == "Showing {count} projects"
    ensures l == Es ==> T(Dict(l), "showingProjects") == "Mostrando {count} asuntos"
  {
    if l == Es {
      EsShowingProjects();
    } else {
      EnShowingProjects();
    }
  }

  lemma EnShowingProjects()
    ensures "showingProjects" !in EnNavigation && "showingProjects" !in EnPanels
    ensures EnOverview["showingProjects"] == "Showing {count} projects"
  {
    EnNavigationLacksShowing();
    EnPanelsLacksShowing();
    EnOverviewShowing();
  }

  lemma EnNavigationLacksShowing()
    ensures "showingProjects" !in EnNavigation
  {
  }

  lemma EnPanelsLacksShowing()
    ensures "showingProjects" !in EnPanels
  {
  }

  lemma EnOverviewShowing()
    ensures EnOverview["showingProjects"] == "Showing {count} projects"
  {
  }

  lemma EsShowingProjects()
    ensures "showingProjects" !in EsNavigation && "showingProjects" !in EsPanels
    ensures EsOverview["showingProjects"] == "Mostrando {count} asuntos"
  {
    EsNavigationLacksShowing();
    EsPanelsLacksShowing();
    EsOverviewShowing();
  }

  lemma EsNavigationLacksShowing()
    ensures "showingProjects" !in EsNavigation
  {
  }

  lemma EsPanelsLacksShowing()
    ensures "showingProjects" !in EsPanels
  {
  }

  lemma EsOverviewShowing()
    ensures EsOverview["showingProjects"] == "Mostrando {count} asuntos"
  {
  }

  /** The language provider's state and what it last wrote to storage. */
  class LanguageState {
    var lang: Lang
    var stored: Option<string>

    /** The state starts in English whatever storage holds. */
    constructor(stored0: Option<string>)
      ensures lang == En && stored == stored0
    {
      lang := En;
      stored := stored0;
    }

    /** The mount effect: a valid stored language replaces the current one. */
    method LoadStored()
      modifies this
      ensures ParseLang(old(stored)).Some? ==> lang == ParseLang(old(stored)).value
      ensures ParseLang(old(stored)).None? ==> lang == old(lang)
      ensures stored == old(stored)
    {
      var parsed := ParseLang(stored);
      if parsed.Some? {
        lang := parsed.value;
      }
    }

    /** `setLang`: the language changes and is persisted. */
    method SetLang(l: Lang)
      modifies this
      ensures lang == l && stored == Some(LangName(l))
      ensures ParseLang(stored) == Some(l)
    {
      lang := l;
      stored := Some(LangName(l));
    }
  }
}
