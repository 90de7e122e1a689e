/**
 * The municipality rules the templates endpoint serves: for each
 * municipality of the Costa del Sol the practice knows, and each
 * transaction type, extra checklist items and document templates.
 */
module Templates {

  /** The two lists one municipality gives one transaction type. */
  datatype Rules = Rules(checklistOverrides: seq<string>, documentTemplates: seq<string>)

  /** The lists an unknown municipality or type gets. */
  const NoRules: Rules := Rules([], [])

  const Marbella: map<string, Rules> := map[
    "Purchase" := Rules(
      ["Check LPO / AFO status (urban planning)",
       "Community (HOA) statutes review for short-let restrictions"],
      ["Notary agenda (Marbella)", "Completion statement (Marbella)", "Utilities transfer letter (Marbella)"]),
    "Sale" := Rules(
      ["Mortgage cancellation coordination (common in Marbella resales)"],
      ["Seller pack checklist (Marbella)", "Plusvalía calculation worksheet (Marbella)"])
  ]

  const Mijas: map<string, Rules> := map[
    "Purchase" := Rules(
      ["Check rural classification / AFO where relevant (Mijas)"],
      ["AFO/LFO request memo (Mijas)", "Notary agenda (Mijas)"]),
    "Sale" := Rules(
      ["Town hall fee confirmations (Mijas)"],
      ["Seller disclosure memo (Mijas)"])
  ]

  const Estepona: map<string, Rules> := map[
    "Purchase" := Rules(
      ["New-build: developer guarantees & snagging plan (Estepona)"],
      ["Developer handover checklist (Estepona)"]),
    "Sale" := Rules(
      ["Tourist license transfer considerations (Estepona)"],
      ["Tourist license transfer note (Estepona)"])
  ]

  /** `MUNI`. */
  const Muni: map<string, map<string, Rules>> := map["Marbella" := Marbella, "Mijas" := Mijas, "Estepona" := Estepona]

  /** Both transaction types, each with at least one item in each list. */
  predicate Complete(entry: map<string, Rules>)
  {
    entry.Keys == {"Purchase", "Sale"}
    && (forall t :: t in entry ==> |entry[t].checklistOverrides| > 0 && |entry[t].documentTemplates| > 0)
  }

  lemma EntriesComplete()
    ensures Complete(Marbella) && Complete(Mijas) && Complete(Estepona)
  {
    MarbellaComplete();
    MijasComplete();
    EsteponaComplete();
  }

  lemma MarbellaComplete()
    ensures Complete(Marbella)
  {
  }

  lemma MijasComplete()
    ensures Complete(Mijas)
  {
  }

  lemma EsteponaComplete()
    ensures Complete(Estepona)
  {
  }

  /** `TemplateOut`. */
  datatype TemplateOut = TemplateOut(
    municipality: string,
    transactionType: string,
    checklistOverrides: seq<string>,
    documentTemplates: seq<string>)

  /**
   * `get_templates`: the municipality's entry (or none), then the type's
   * rules (or two empty lists), answered with the request's own names.
   */
  function GetTemplates(municipality: string, transactionType: string): TemplateOut
  {
    var muni := if municipality in Muni then Muni[municipality] else map[];
    var tt := if transactionType in muni then muni[transactionType] else NoRules;
    TemplateOut(municipality, transactionType, tt.checklistOverrides, tt.documentTemplates)
  }

  /** The three municipalities, each with rules for both transaction types. */
  lemma MuniCoverage()
    ensures Muni.Keys == {"Marbella", "Mijas", "Estepona"}
    ensures forall m :: m in Muni ==> Complete(Muni[m])
  {
    MuniKeys();
    EntriesComplete();
  }

  /**
   * The answer echoes the request; a known municipality and type get that
   * entry's lists, anything else two empty lists. Since every entry is
   * non-empty, the lists are non-empty exactly for a known pair.
   */
  lemma GetTemplatesMeaning(municipality: string, transactionType: string)
    ensures GetTemplates(municipality, transactionType).municipality == municipality
    ensures GetTemplates(municipality, transactionType).transactionType == transactionType
    ensures municipality in Muni && transactionType in Muni[municipality] ==>
      GetTemplates(municipality, transactionType).checklistOverrides == Muni[municipality][transactionType].checklistOverrides
      && GetTemplates(municipality, transactionType).documentTemplates == Muni[municipality][transactionType].documentTemplates
    ensures !(municipality in Muni && transactionType in Muni[municipality]) ==>
      GetTemplates(municipality, transactionType).checklistOverrides == []
      && GetTemplates(municipality, transactionType).documentTemplates == []
    ensures GetTemplates(municipality, transactionType).documentTemplates != [] <==>
      municipality in Muni && transactionType in Muni[municipality]
  {
    MuniCoverage();
  }

  /** The lookup is exact: a lower-case municipality name finds nothing. */
  lemma LookupIsCaseSensitive()
    ensures GetTemplates("marbella", "Purchase").documentTemplates == []
    ensures GetTemplates("Marbella", "purchase").documentTemplates == []
    ensures |GetTemplates("Marbella", "Purchase").documentTemplates| == 3
  {
    MuniKeys();
    MarbellaPurchase();
  }

  lemma MuniKeys()
    ensures Muni.Keys == {"Marbella", "Mijas", "Estepona"}
  {
  }

  lemma MarbellaPurchase()
    ensures "purchase" !in Marbella && "Purchase" in Marbella
    ensures |Marbella["Purchase"].documentTemplates| == 3
  {
  }
}
