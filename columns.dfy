/** The fixed column lists of the clinical data set and the category a
    column is drawn in on the fill-rate plot (`get_color`). */
module Columns {

  /** The test-result column every filter on the label reads. */
  const LABEL: string := "covid19_test_results"

  const SYMPTOMS: seq<string> := [
    "labored_respiration", "rhonchi", "wheezes", "cough", "cough_severity",
    "loss_of_smell", "loss_of_taste", "runny_nose", "muscle_sore",
    "sore_throat", "fever", "sob", "sob_severity", "diarrhea", "fatigue",
    "headache", "ctab", "days_since_symptom_onset"
  ]

  const VITALS: seq<string> := ["temperature", "pulse", "sys", "dia", "rr", "sats"]

  const COMORBIDITIES: seq<string> := [
    "diabetes", "chd", "htn", "cancer", "asthma", "copd", "autoimmune_dis", "smoker"
  ]

  const RISKS: seq<string> := ["age", "high_risk_exposure_occupation", "high_risk_interactions"]

  const TEST_RESULTS: seq<string> := [
    "batch_date", LABEL, "rapid_flu_results", "rapid_strep_results", "swab_type", "test_name"
  ]

  const CXR_FIELDS: seq<string> := ["cxr_findings", "cxr_impression", "cxr_label", "cxr_link"]

  /** The legend entries of the fill-rate plot, in palette order; `Other`
      is the gray fallback. */
  datatype Category =
    | TestResults | EpiFactors | Comorbidities | Vitals | Symptoms
    | RadiologicalFindings | Other

  /** The column list that defines a category (`Other` has none). */
  function Members(k: Category): seq<string>
  {
    match k
    case TestResults => TEST_RESULTS
    case EpiFactors => RISKS
    case Comorbidities => COMORBIDITIES
    case Vitals => VITALS
    case Symptoms => SYMPTOMS
    case RadiologicalFindings => CXR_FIELDS
    case Other => []
  }

  /** The position at which `get_color` tests a category; `Other` is last. */
  function Precedence(k: Category): nat
  {
    match k
    case TestResults => 0
    case EpiFactors => 1
    case Comorbidities => 2
    case Vitals => 3
    case Symptoms => 4
    case RadiologicalFindings => 5
    case Other => 6
  }

  /** `get_color`: the category of the first list, in the order the source
      tests them, that contains the column; gray (`Other`) for any column in
      none of them. Total: an unknown column never fails. */
  function ColorCategory(col: string): (k: Category)
    ensures k != Other ==> col in Members(k)
    ensures forall j :: Precedence(j) < Precedence(k) ==> col !in Members(j)
    ensures k == Other <==> forall j :: col !in Members(j)
  {
    if col in TEST_RESULTS then TestResults
    else if col in RISKS then EpiFactors
    else if col in COMORBIDITIES then Comorbidities
    else if col in VITALS then Vitals
    else if col in SYMPTOMS then Symptoms
    else if col in CXR_FIELDS then RadiologicalFindings
    else Other
  }

  // Pairwise disjointness of the six lists, one list against the later ones.
  lemma TestResultsApart(col: string)
    requires col in TEST_RESULTS
    ensures col !in RISKS && col !in COMORBIDITIES && col !in VITALS
    ensures col !in SYMPTOMS && col !in CXR_FIELDS
  {
  }

  lemma RisksApart(col: string)
    requires col in RISKS
    ensures col !in COMORBIDITIES && col !in VITALS && col !in SYMPTOMS && col !in CXR_FIELDS
  {
  }

  lemma ComorbiditiesApart(col: string)
    requires col in COMORBIDITIES
    ensures col !in VITALS && col !in SYMPTOMS && col !in CXR_FIELDS
  {
  }

  lemma VitalsApart(col: string)
    requires col in VITALS
    ensures col !in SYMPTOMS && col !in CXR_FIELDS
  {
  }

  lemma SymptomsApart(col: string)
    requires col in SYMPTOMS
    ensures col !in CXR_FIELDS
  {
  }

  /** A column of one list is in none of the lists `get_color` tests after it. */
  lemma NotInLaterList(col: string, k: Category)
    requires col in Members(k)
    ensures forall j :: Precedence(k) < Precedence(j) ==> col !in Members(j)
  {
    match k
    case TestResults => TestResultsApart(col);
    case EpiFactors => RisksApart(col);
    case Comorbidities => ComorbiditiesApart(col);
    case Vitals => VitalsApart(col);
    case Symptoms => SymptomsApart(col);
    case RadiologicalFindings =>
    case Other =>
  }

  /** No column name sits in two of the six lists. */
  lemma ColumnListsDisjoint(col: string, j: Category, k: Category)
    requires col in Members(j) && col in Members(k)
    ensures j == k
  {
    NotInLaterList(col, j);
    NotInLaterList(col, k);
  }

  /** Because the lists are disjoint, the first-match order of `get_color`
      never decides anything: a listed column gets exactly the category of
      the list that holds it. */
  lemma ColorCategoryExact(col: string, k: Category)
    requires k != Other
    ensures ColorCategory(col) == k <==> col in Members(k)
  {
    if col in Members(k) && ColorCategory(col) != k {
      ColumnListsDisjoint(col, ColorCategory(col), k);
    }
  }
}
