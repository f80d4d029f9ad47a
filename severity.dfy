/** `get_sym_severity_score` and `get_sym_severity`: a symptom severity
    score in [-1, 7] read off a row, and the label it falls into. */
module Severity {
  import opened Cells

  const NUM_SYMPTOMS: string := "num_symptoms"
  const COUGH_SEVERITY: string := "cough_severity"
  const SOB_SEVERITY: string := "sob_severity"
  const FEVER: string := "fever"

  /** Weight of each recognised severity string. */
  const SEVERITY_MAPPINGS: map<string, int> := map["Mild" := 1, "Moderate" := 2, "Severe" := 3]

  /** `SEVERITY_MAPPINGS.get(v, 0)`: a recognised severity string weighs 1 to
      3; anything else, a missing cell included, weighs 0. */
  function Weight(c: Cell): (w: int)
    ensures 0 <= w <= 3
    ensures w == 0 <==> !(c.Str? && c.s in SEVERITY_MAPPINGS)
  {
    if c.Str? && c.s in SEVERITY_MAPPINGS then SEVERITY_MAPPINGS[c.s] else 0
  }

  /** `get_sym_severity_score`: -1 when the row's `num_symptoms == 0`;
      otherwise the cough weight plus the shortness-of-breath weight plus 1
      for `fever == True`, which lies in [0, 7]. */
  function SymSeverityScore(row: Row): (score: int)
    ensures -1 <= score <= 7
    ensures score == -1 <==> IsZero(At(row, NUM_SYMPTOMS))
  {
    if IsZero(At(row, NUM_SYMPTOMS)) then -1
    else
      Weight(At(row, COUGH_SEVERITY)) + Weight(At(row, SOB_SEVERITY))
      + (if IsTrue(At(row, FEVER)) then 1 else 0)
  }

  /** The score reads only the four cells it names. */
  lemma ScoreReads(r1: Row, r2: Row)
    requires forall col :: col in [NUM_SYMPTOMS, COUGH_SEVERITY, SOB_SEVERITY, FEVER] ==> At(r1, col) == At(r2, col)
    ensures SymSeverityScore(r1) == SymSeverityScore(r2)
  {
  }

  /** For a row with symptoms, a fever adds exactly one point. */
  lemma FeverAddsOne(row: Row)
    requires !IsZero(At(row, NUM_SYMPTOMS))
    ensures SymSeverityScore(row[FEVER := Bool(true)]) == SymSeverityScore(row[FEVER := Bool(false)]) + 1
  {
  }

  /** The five severity buckets, mildest first. */
  datatype SeverityLabel = Asymptomatic | ExtremelyMild | Mild | Moderate | Severe

  /** Position of a label from mildest (0) to most severe (4). */
  function Rank(l: SeverityLabel): nat
  {
    match l
    case Asymptomatic => 0
    case ExtremelyMild => 1
    case Mild => 2
    case Moderate => 3
    case Severe => 4
  }

  /** The string the source stores for a label. */
  function LabelText(l: SeverityLabel): (s: string)
    ensures s == "Asymptomatic" <==> l == Asymptomatic
    ensures s == "Extremely Mild" <==> l == ExtremelyMild
    ensures s == "Mild" <==> l == Mild
    ensures s == "Moderate" <==> l == Moderate
    ensures s == "Severe" <==> l == Severe
  {
    match l
    case Asymptomatic => "Asymptomatic"
    case ExtremelyMild => "Extremely Mild"
    case Mild => "Mild"
    case Moderate => "Moderate"
    case Severe => "Severe"
  }

  /** Distinct labels are stored as distinct strings. */
  lemma LabelTextInjective(l1: SeverityLabel, l2: SeverityLabel)
    requires LabelText(l1) == LabelText(l2)
    ensures l1 == l2
  {
  }

  /** `get_sym_severity`: below 0 asymptomatic, [0, 1) extremely mild,
      [1, 2) mild, [2, 3) moderate, 3 and above severe. Total on every
      number. */
  function SymSeverity(score: real): (l: SeverityLabel)
    ensures l == Asymptomatic <==> score < 0.0
    ensures l == ExtremelyMild <==> 0.0 <= score < 1.0
    ensures l == Mild <==> 1.0 <= score < 2.0
    ensures l == Moderate <==> 2.0 <= score < 3.0
    ensures l == Severe <==> 3.0 <= score
  {
    if score < 0.0 then Asymptomatic
    else if score < 1.0 then ExtremelyMild
    else if score < 2.0 then Mild
    else if score < 3.0 then Moderate
    else Severe
  }

  /** A higher score never gets a milder label. */
  lemma SymSeverityMonotone(a: real, b: real)
    requires a <= b
    ensures Rank(SymSeverity(a)) <= Rank(SymSeverity(b))
  {
  }

  /** The label of a row's score, as the pipeline stores it. */
  function RowSeverity(row: Row): SeverityLabel
  {
    SymSeverity(SymSeverityScore(row) as real)
  }

  /** The bucket meanings the scorer documents: asymptomatic exactly when
      there are no symptoms; extremely mild when there are symptoms but no
      weighted cough, no weighted shortness of breath and no fever; a severe
      cough or severe shortness of breath alone already makes it severe. */
  lemma RowSeverityMeaning(row: Row)
    ensures RowSeverity(row) == Asymptomatic <==> IsZero(At(row, NUM_SYMPTOMS))
    ensures RowSeverity(row) == ExtremelyMild <==>
      !IsZero(At(row, NUM_SYMPTOMS)) && Weight(At(row, COUGH_SEVERITY)) == 0 &&
      Weight(At(row, SOB_SEVERITY)) == 0 && !IsTrue(At(row, FEVER))
    ensures (!IsZero(At(row, NUM_SYMPTOMS)) &&
             (At(row, COUGH_SEVERITY) == Str("Severe") || At(row, SOB_SEVERITY) == Str("Severe")))
            ==> RowSeverity(row) == Severe
  {
    var s := SymSeverityScore(row);
    if !IsZero(At(row, NUM_SYMPTOMS)) {
      assert s >= 0;
      assert s == 0 <==>
        Weight(At(row, COUGH_SEVERITY)) == 0 && Weight(At(row, SOB_SEVERITY)) == 0 && !IsTrue(At(row, FEVER));
      if At(row, COUGH_SEVERITY) == Str("Severe") || At(row, SOB_SEVERITY) == Str("Severe") {
        assert SEVERITY_MAPPINGS["Severe"] == 3;
        assert s >= 3;
      }
    }
  }

  /** The worked example: severe cough, mild shortness of breath, fever and
      two symptoms score 3 + 1 + 1 = 5, which is severe. */
  lemma ScoreExamples(row: Row)
    requires At(row, NUM_SYMPTOMS) == Num(2.0)
    ensures SymSeverityScore(row[COUGH_SEVERITY := Str("Severe")][SOB_SEVERITY := Str("Mild")][FEVER := Bool(true)]) == 5
    ensures RowSeverity(row[COUGH_SEVERITY := Str("Severe")][SOB_SEVERITY := Str("Mild")][FEVER := Bool(true)]) == Severe
  {
    var ex := row[COUGH_SEVERITY := Str("Severe")][SOB_SEVERITY := Str("Mild")][FEVER := Bool(true)];
    assert At(ex, NUM_SYMPTOMS) == Num(2.0);
    assert At(ex, COUGH_SEVERITY) == Str("Severe") && At(ex, SOB_SEVERITY) == Str("Mild");
    assert SEVERITY_MAPPINGS["Severe"] == 3 && SEVERITY_MAPPINGS["Mild"] == 1;
  }

  /** For any row with symptoms, the highest score, 7, needs a severe cough,
      severe shortness of breath and a fever, and they give it. */
  lemma TopScore(row: Row)
    requires !IsZero(At(row, NUM_SYMPTOMS))
    ensures SymSeverityScore(row) == 7 <==>
      At(row, COUGH_SEVERITY) == Str("Severe") && At(row, SOB_SEVERITY) == Str("Severe") && IsTrue(At(row, FEVER))
  {
    assert SEVERITY_MAPPINGS["Severe"] == 3;
    assert Weight(At(row, COUGH_SEVERITY)) == 3 <==> At(row, COUGH_SEVERITY) == Str("Severe");
    assert Weight(At(row, SOB_SEVERITY)) == 3 <==> At(row, SOB_SEVERITY) == Str("Severe");
  }
}
