/** `GetClinicalReports.startClinicalReports`: the three diagnostic filters
    over the loaded frame, then the derived columns `is_abnormal_cxr`,
    `num_symptoms`, `severity_score` and `sym_severity`, added to the frame
    in place, in that order. */
module ClinicalReports {
  import opened Cells
  import opened Columns
  import opened RowFilters
  import opened Radiology
  import opened Severity

  const CXR_IMPRESSION: string := "cxr_impression"
  const IS_ABNORMAL_CXR: string := "is_abnormal_cxr"
  const SEVERITY_SCORE: string := "severity_score"
  const SYM_SEVERITY: string := "sym_severity"

  /** The columns the pass adds. */
  const DERIVED: set<string> := {IS_ABNORMAL_CXR, NUM_SYMPTOMS, SEVERITY_SCORE, SYM_SEVERITY}

  /** How a verdict lands in the frame: True, False, or None, which pandas
      reads back as null, so an unknown verdict looks like no verdict. */
  function TristateCell(v: Tristate): (c: Cell)
    ensures IsNull(c) <==> v == Unknown
    ensures IsTrue(c) <==> v == Abnormal
    ensures c == Bool(false) <==> v == NotAbnormal
  {
    match v
    case Abnormal => Bool(true)
    case NotAbnormal => Bool(false)
    case Unknown => Missing
  }

  /** `re.search` accepts the impression: it is text, or it is null and
      never searched. Any other value raises `TypeError`. */
  predicate ImpressionIsText(row: Row)
  {
    At(row, CXR_IMPRESSION).Missing? || At(row, CXR_IMPRESSION).Str?
  }

  /** Step 1 on one row, `data.loc[is_not_null, 'is_abnormal_cxr'] = ...`:
      a row with an impression gets its verdict; a row without keeps the
      cell it has, or a null one when the column is new. */
  function WithAbnormalCxr(search: (string, string) -> bool, row: Row): (r: Row)
    requires ImpressionIsText(row)
    ensures r.Keys == row.Keys + {IS_ABNORMAL_CXR}
    ensures forall col :: col != IS_ABNORMAL_CXR ==> At(r, col) == At(row, col)
    ensures At(row, CXR_IMPRESSION).Str? ==>
      At(r, IS_ABNORMAL_CXR) == TristateCell(IsAbnormalCxr(search, At(row, CXR_IMPRESSION).s))
    ensures At(row, CXR_IMPRESSION).Missing? ==> At(r, IS_ABNORMAL_CXR) == At(row, IS_ABNORMAL_CXR)
  {
    match At(row, CXR_IMPRESSION)
    case Str(text) => row[IS_ABNORMAL_CXR := TristateCell(IsAbnormalCxr(search, text))]
    case Missing => if IS_ABNORMAL_CXR in row then row else row[IS_ABNORMAL_CXR := Missing]
  }

  /** `sum(1 for sym in cols if x[sym] == True)`. */
  function CountTrue(row: Row, cols: seq<string>): (n: nat)
    ensures n <= |cols|
    ensures n == 0 <==> !IsAnyTrue(row, cols)
  {
    if cols == [] then 0
    else (if IsTrue(At(row, cols[0])) then 1 else 0) + CountTrue(row, cols[1..])
  }

  /** The count adds up over column lists laid end to end. */
  lemma {:induction false} CountTrueAppend(row: Row, a: seq<string>, b: seq<string>)
    ensures CountTrue(row, a + b) == CountTrue(row, a) + CountTrue(row, b)
  {
    if a == [] {
      assert a + b == b;
    } else {
      assert (a + b)[1..] == a[1..] + b;
      CountTrueAppend(row, a[1..], b);
    }
  }

  /** The count reads only the listed columns. */
  lemma {:induction false} CountTrueReads(r1: Row, r2: Row, cols: seq<string>)
    requires forall col :: col in cols ==> At(r1, col) == At(r2, col)
    ensures CountTrue(r1, cols) == CountTrue(r2, cols)
  {
    if cols != [] {
      CountTrueReads(r1, r2, cols[1..]);
    }
  }

  /** Writing a column outside the list leaves the count alone. */
  lemma {:induction false} CountTrueIgnores(row: Row, col: string, v: Cell, cols: seq<string>)
    requires col !in cols
    ensures CountTrue(row[col := v], cols) == CountTrue(row, cols)
  {
    if cols != [] {
      assert At(row[col := v], cols[0]) == At(row, cols[0]);
      CountTrueIgnores(row, col, v, cols[1..]);
    }
  }

  /** Step 2 on one row: `num_symptoms`, the count over the symptom
      columns (the pass uses `SYMPTOMS`). */
  function WithNumSymptoms(symptoms: seq<string>, row: Row): (r: Row)
    ensures r.Keys == row.Keys + {NUM_SYMPTOMS}
    ensures At(r, NUM_SYMPTOMS).Num? && 0.0 <= At(r, NUM_SYMPTOMS).x <= |symptoms| as real
    ensures IsZero(At(r, NUM_SYMPTOMS)) <==> !IsAnyTrue(row, symptoms)
  {
    row[NUM_SYMPTOMS := Num(CountTrue(row, symptoms) as real)]
  }

  /** Step 3 on one row: `severity_score`, read from the row that already
      carries `num_symptoms`. */
  function WithSeverityScore(row: Row): (r: Row)
    ensures r.Keys == row.Keys + {SEVERITY_SCORE}
    ensures At(r, SEVERITY_SCORE).Num? && -1.0 <= At(r, SEVERITY_SCORE).x <= 7.0
    ensures At(r, SEVERITY_SCORE) == Num(-1.0) <==> IsZero(At(row, NUM_SYMPTOMS))
  {
    row[SEVERITY_SCORE := Num(SymSeverityScore(row) as real)]
  }

  /** Step 4 on one row: `sym_severity`, from the stored score. */
  function WithSymSeverity(row: Row): (r: Row)
    requires At(row, SEVERITY_SCORE).Num?
    ensures r.Keys == row.Keys + {SYM_SEVERITY}
    ensures At(r, SYM_SEVERITY) == Str("Asymptomatic") <==> At(row, SEVERITY_SCORE).x < 0.0
    ensures At(r, SYM_SEVERITY) == Str("Severe") <==> At(row, SEVERITY_SCORE).x >= 3.0
  {
    row[SYM_SEVERITY := Str(LabelText(SymSeverity(At(row, SEVERITY_SCORE).x)))]
  }

  /** The whole pass on one row, steps in source order. */
  function Derive(search: (string, string) -> bool, symptoms: seq<string>, row: Row): (r: Row)
    requires ImpressionIsText(row)
    ensures r.Keys == row.Keys + DERIVED
  {
    WithSymSeverity(WithSeverityScore(WithNumSymptoms(symptoms, WithAbnormalCxr(search, row))))
  }

  /** The symptom columns are raw input columns, none of them derived. */
  predicate RawSymptoms(symptoms: seq<string>)
  {
    forall col :: col in symptoms ==> col !in DERIVED
  }

  /** The symptom columns of the source are raw input columns. */
  lemma SymptomsAreRaw()
    ensures RawSymptoms(SYMPTOMS)
  {
    forall col | col in SYMPTOMS
      ensures col !in DERIVED
    {
      SymptomNotCxrOrCount(col);
      SymptomNotScoreOrLabel(col);
    }
  }

  lemma SymptomNotCxrOrCount(col: string)
    requires col in SYMPTOMS
    ensures col != IS_ABNORMAL_CXR && col != NUM_SYMPTOMS
  {
  }

  lemma SymptomNotScoreOrLabel(col: string)
    requires col in SYMPTOMS
    ensures col != SEVERITY_SCORE && col != SYM_SEVERITY
  {
  }

  /** None of the score inputs is a derived column, so the pass never reads
      what it writes; the four derived names differ. */
  lemma DerivedNotRead()
    ensures CXR_IMPRESSION !in DERIVED
    ensures COUGH_SEVERITY !in DERIVED && SOB_SEVERITY !in DERIVED && FEVER !in DERIVED
    ensures IS_ABNORMAL_CXR != NUM_SYMPTOMS && IS_ABNORMAL_CXR != SEVERITY_SCORE
    ensures IS_ABNORMAL_CXR != SYM_SEVERITY && NUM_SYMPTOMS != SEVERITY_SCORE
    ensures NUM_SYMPTOMS != SYM_SEVERITY && SEVERITY_SCORE != SYM_SEVERITY
  {
  }

  /** The pass only adds columns: it adds exactly the four derived ones and
      leaves every other cell as it was. */
  lemma DeriveAddsColumnsOnly(search: (string, string) -> bool, symptoms: seq<string>, row: Row)
    requires ImpressionIsText(row)
    ensures Derive(search, symptoms, row).Keys == row.Keys + DERIVED
    ensures forall col :: col !in DERIVED ==> At(Derive(search, symptoms, row), col) == At(row, col)
  {
  }

  /** Step 1 writes no symptom column, so the count is unchanged by it. */
  lemma CountAfterStep1(search: (string, string) -> bool, symptoms: seq<string>, row: Row)
    requires ImpressionIsText(row) && RawSymptoms(symptoms)
    ensures CountTrue(WithAbnormalCxr(search, row), symptoms) == CountTrue(row, symptoms)
  {
    DerivedNotRead();
    match At(row, CXR_IMPRESSION)
    case Str(text) =>
      CountTrueIgnores(row, IS_ABNORMAL_CXR, TristateCell(IsAbnormalCxr(search, text)), symptoms);
    case Missing =>
      CountTrueIgnores(row, IS_ABNORMAL_CXR, Missing, symptoms);
  }

  /** The count the derived row carries is the count on the raw row:
      step 1 writes no symptom column. */
  lemma DeriveNumCell(search: (string, string) -> bool, symptoms: seq<string>, row: Row)
    requires ImpressionIsText(row) && RawSymptoms(symptoms)
    ensures At(Derive(search, symptoms, row), NUM_SYMPTOMS) == Num(CountTrue(row, symptoms) as real)
    ensures 0 <= CountTrue(row, symptoms) <= |symptoms|
  {
    DerivedNotRead();
    CountAfterStep1(search, symptoms, row);
  }

  /** The score the derived row carries, in terms of the row after step 2. */
  lemma DeriveScoreCell(search: (string, string) -> bool, symptoms: seq<string>, row: Row)
    requires ImpressionIsText(row) && RawSymptoms(symptoms)
    ensures At(Derive(search, symptoms, row), SEVERITY_SCORE) ==
      Num(SymSeverityScore(WithNumSymptoms(symptoms, WithAbnormalCxr(search, row))) as real)
  {
    DerivedNotRead();
  }

  /** The label the derived row carries, in terms of the row after step 2. */
  lemma DeriveLabelCell(search: (string, string) -> bool, symptoms: seq<string>, row: Row)
    requires ImpressionIsText(row) && RawSymptoms(symptoms)
    ensures At(Derive(search, symptoms, row), SYM_SEVERITY) ==
      Str(LabelText(SymSeverity(SymSeverityScore(WithNumSymptoms(symptoms, WithAbnormalCxr(search, row))) as real)))
  {
    var sc := WithSeverityScore(WithNumSymptoms(symptoms, WithAbnormalCxr(search, row)));
    assert At(sc, SEVERITY_SCORE) == Num(SymSeverityScore(WithNumSymptoms(symptoms, WithAbnormalCxr(search, row))) as real);
  }

  /** What the pass writes for the symptoms: `severity_score` lies in
      [-1, 7] and is -1 exactly when the symptom count is 0; `sym_severity`
      is the bucket of that score. */
  lemma DeriveScoreColumns(search: (string, string) -> bool, symptoms: seq<string>, row: Row)
    requires ImpressionIsText(row) && RawSymptoms(symptoms)
    ensures At(Derive(search, symptoms, row), SEVERITY_SCORE).Num?
    ensures -1.0 <= At(Derive(search, symptoms, row), SEVERITY_SCORE).x <= 7.0
    ensures At(Derive(search, symptoms, row), SEVERITY_SCORE) == Num(-1.0) <==> CountTrue(row, symptoms) == 0
    ensures At(Derive(search, symptoms, row), SYM_SEVERITY) ==
      Str(LabelText(SymSeverity(At(Derive(search, symptoms, row), SEVERITY_SCORE).x)))
  {
    DeriveScoreCell(search, symptoms, row);
    DeriveLabelCell(search, symptoms, row);
    var a := WithAbnormalCxr(search, row);
    CountAfterStep1(search, symptoms, row);
    DerivedNotRead();
    var n := WithNumSymptoms(symptoms, a);
    assert IsZero(At(n, NUM_SYMPTOMS)) <==> CountTrue(row, symptoms) == 0;
  }

  /** A row is labelled Asymptomatic exactly when none of its symptom
      columns `== True`. */
  lemma DeriveAsymptomatic(search: (string, string) -> bool, symptoms: seq<string>, row: Row)
    requires ImpressionIsText(row) && RawSymptoms(symptoms)
    ensures At(Derive(search, symptoms, row), SYM_SEVERITY) == Str("Asymptomatic") <==> !IsAnyTrue(row, symptoms)
  {
    DeriveScoreColumns(search, symptoms, row);
    var x := At(Derive(search, symptoms, row), SEVERITY_SCORE).x;
    var lbl := SymSeverity(x);
    assert lbl == Asymptomatic <==> x < 0.0;
    if LabelText(lbl) == "Asymptomatic" {
      LabelTextInjective(lbl, Asymptomatic);
    }
  }

  /** What the pass writes for the impression: a row with text gets the
      classifier's verdict; a row without keeps its cell (null when the
      column is new). */
  lemma DeriveAbnormalColumn(search: (string, string) -> bool, symptoms: seq<string>, row: Row)
    requires ImpressionIsText(row) && RawSymptoms(symptoms)
    ensures At(row, CXR_IMPRESSION).Str? ==>
      At(Derive(search, symptoms, row), IS_ABNORMAL_CXR) == TristateCell(IsAbnormalCxr(search, At(row, CXR_IMPRESSION).s))
    ensures At(row, CXR_IMPRESSION).Missing? ==>
      At(Derive(search, symptoms, row), IS_ABNORMAL_CXR) == At(row, IS_ABNORMAL_CXR)
  {
  }

  // Each step, run on a row the pass has already produced, rewrites the
  // cell it finds there.

  lemma ReclassifyStable(search: (string, string) -> bool, symptoms: seq<string>, row: Row)
    requires ImpressionIsText(row) && RawSymptoms(symptoms)
    ensures ImpressionIsText(Derive(search, symptoms, row))
    ensures WithAbnormalCxr(search, Derive(search, symptoms, row)) == Derive(search, symptoms, row)
  {
    DerivedNotRead();
    DeriveAddsColumnsOnly(search, symptoms, row);
    DeriveAbnormalColumn(search, symptoms, row);
  }

  lemma RecountStable(search: (string, string) -> bool, symptoms: seq<string>, row: Row)
    requires ImpressionIsText(row) && RawSymptoms(symptoms)
    ensures WithNumSymptoms(symptoms, Derive(search, symptoms, row)) == Derive(search, symptoms, row)
  {
    var d := Derive(search, symptoms, row);
    DerivedNotRead();
    DeriveAddsColumnsOnly(search, symptoms, row);
    DeriveNumCell(search, symptoms, row);
    CountTrueReads(d, row, symptoms);
  }

  lemma RescoreStable(search: (string, string) -> bool, symptoms: seq<string>, row: Row)
    requires ImpressionIsText(row) && RawSymptoms(symptoms)
    ensures WithSeverityScore(Derive(search, symptoms, row)) == Derive(search, symptoms, row)
  {
    var n := WithNumSymptoms(symptoms, WithAbnormalCxr(search, row));
    var sc := WithSeverityScore(n);
    ScoreIgnores(n, SEVERITY_SCORE, Num(SymSeverityScore(n) as real));
    ScoreIgnores(sc, SYM_SEVERITY, Str(LabelText(SymSeverity(At(sc, SEVERITY_SCORE).x))));
  }

  /** The score does not read the columns the last two steps write. */
  lemma ScoreIgnores(row: Row, col: string, v: Cell)
    requires col == SEVERITY_SCORE || col == SYM_SEVERITY
    ensures SymSeverityScore(row[col := v]) == SymSeverityScore(row)
  {
    ScoreReads(row[col := v], row);
  }

  lemma RelabelStable(search: (string, string) -> bool, symptoms: seq<string>, row: Row)
    requires ImpressionIsText(row) && RawSymptoms(symptoms)
    ensures At(Derive(search, symptoms, row), SEVERITY_SCORE).Num?
    ensures WithSymSeverity(Derive(search, symptoms, row)) == Derive(search, symptoms, row)
  {
    DeriveScoreColumns(search, symptoms, row);
  }

  /** Running the pass again changes nothing: no derived column feeds a
      column computed before it. */
  lemma DeriveIdempotent(search: (string, string) -> bool, symptoms: seq<string>, row: Row)
    requires ImpressionIsText(row) && RawSymptoms(symptoms)
    ensures ImpressionIsText(Derive(search, symptoms, row))
    ensures Derive(search, symptoms, Derive(search, symptoms, row)) == Derive(search, symptoms, row)
  {
    ReclassifyStable(search, symptoms, row);
    RecountStable(search, symptoms, row);
    RescoreStable(search, symptoms, row);
    RelabelStable(search, symptoms, row);
  }

  /** The symptomatic subset the report filters out is exactly the rows the
      pass does not label Asymptomatic. */
  lemma SymptomaticAgreesWithSeverity(search: (string, string) -> bool, symptoms: seq<string>, t: Table, row: Row)
    requires row in t && ImpressionIsText(row) && RawSymptoms(symptoms)
    ensures FilterPatients(t, symptoms, "bool").Frame?
    ensures row in FilterPatients(t, symptoms, "bool").rows <==>
      At(Derive(search, symptoms, row), SYM_SEVERITY) != Str("Asymptomatic")
  {
    DeriveAsymptomatic(search, symptoms, row);
    var r := FilterPatients(t, symptoms, "bool");
    assert multiset(r.rows)[row] == if IsAnyTrue(row, symptoms) then multiset(t)[row] else 0;
  }

  /** `x[sym] == True` also holds for the number 1, so a row whose only
      entry among the symptom columns is `days_since_symptom_onset` = 1 is
      counted as having a symptom, while one with 2 days is not. */
  lemma OnsetDayOneCounts()
    ensures CountTrue(map["days_since_symptom_onset" := Num(1.0)], SYMPTOMS) > 0
    ensures CountTrue(map["days_since_symptom_onset" := Num(2.0)], SYMPTOMS) == 0
  {
    var one := map["days_since_symptom_onset" := Num(1.0)];
    assert "days_since_symptom_onset" in SYMPTOMS && IsTrue(At(one, "days_since_symptom_onset"));
  }

  /** What the report gives back besides the frame it changes. */
  datatype Report =
    | Completed(positive: Table, symptomatic: Table, withVitals: Table)
    | Raised   // an exception ended the report before any column was added

  /** The loaded frame, whose rows the pass updates in place. */
  class ClinicalReport {
    var data: array<Row>

    /** The frame `open_data` returns; reading the files is not modelled. */
    constructor (rows: seq<Row>)
      ensures fresh(data) && data[..] == rows
    {
      data := new Row[|rows|](i requires 0 <= i < |rows| => rows[i]);
    }

    /** Lines 20-22: the three filtered frames. They are new tables; the
        loaded frame is left as it is. */
    method Filters() returns (positive: Table, symptomatic: FilterResult, withVitals: FilterResult)
      ensures positive == FilterPos(data[..])
      ensures symptomatic == FilterPatients(data[..], SYMPTOMS, "bool") && symptomatic.Frame?
      ensures withVitals == FilterPatients(data[..], VITALS, "numeric") && !withVitals.NoFrame?
    {
      positive := FilterPos(data[..]);
      symptomatic := FilterPatients(data[..], SYMPTOMS, "bool");
      withVitals := FilterPatients(data[..], VITALS, "numeric");
    }

    /** Lines 24-27. The classifier runs on every non-null impression before
        anything is written, so a non-text impression raises with the frame
        untouched. */
    method AddAbnormalCxr(search: (string, string) -> bool) returns (ok: bool)
      modifies data
      ensures ok <==> forall i :: 0 <= i < data.Length ==> ImpressionIsText(old(data[i]))
      ensures ok ==> forall i :: 0 <= i < data.Length ==> data[i] == WithAbnormalCxr(search, old(data[i]))
      ensures !ok ==> data[..] == old(data[..])
    {
      ok := forall i :: 0 <= i < data.Length ==> ImpressionIsText(data[i]);
      if !ok {
        return;
      }
      ghost var rows := data[..];
      var i := 0;
      while i < data.Length
        invariant 0 <= i <= data.Length
        invariant forall j :: 0 <= j < i ==> data[j] == WithAbnormalCxr(search, rows[j])
        invariant forall j :: i <= j < data.Length ==> data[j] == rows[j]
      {
        data[i] := WithAbnormalCxr(search, data[i]);
        i := i + 1;
      }
    }

    /** Lines 29-31: `num_symptoms` on every row, counted over `symptoms`. */
    method AddNumSymptoms(symptoms: seq<string>)
      modifies data
      ensures forall i :: 0 <= i < data.Length ==> data[i] == WithNumSymptoms(symptoms, old(data[i]))
    {
      var i := 0;
      while i < data.Length
        invariant 0 <= i <= data.Length
        invariant forall j :: 0 <= j < i ==> data[j] == WithNumSymptoms(symptoms, old(data[j]))
        invariant forall j :: i <= j < data.Length ==> data[j] == old(data[j])
      {
        data[i] := WithNumSymptoms(symptoms, data[i]);
        i := i + 1;
      }
    }

    /** Lines 32-34: `severity_score` on every row. */
    method AddSeverityScore()
      modifies data
      ensures forall i :: 0 <= i < data.Length ==> data[i] == WithSeverityScore(old(data[i]))
    {
      var i := 0;
      while i < data.Length
        invariant 0 <= i <= data.Length
        invariant forall j :: 0 <= j < i ==> data[j] == WithSeverityScore(old(data[j]))
        invariant forall j :: i <= j < data.Length ==> data[j] == old(data[j])
      {
        data[i] := WithSeverityScore(data[i]);
        i := i + 1;
      }
    }

    /** Lines 35-37: `sym_severity` on every row, from its stored score. */
    method AddSymSeverity()
      requires forall i :: 0 <= i < data.Length ==> At(data[i], SEVERITY_SCORE).Num?
      modifies data
      ensures forall i :: 0 <= i < data.Length ==> data[i] == WithSymSeverity(old(data[i]))
    {
      var i := 0;
      while i < data.Length
        invariant 0 <= i <= data.Length
        invariant forall j :: 0 <= j < i ==> data[j] == WithSymSeverity(old(data[j]))
        invariant forall j :: i <= j < data.Length ==> data[j] == old(data[j])
      {
        data[i] := WithSymSeverity(data[i]);
        i := i + 1;
      }
    }

    /** Lines 24-37: the four derived columns, in order. The classifier
        check comes first, so a non-text impression leaves the frame as it
        was; otherwise every row becomes `Derive` of itself. */
    method AddDerivedColumns(search: (string, string) -> bool, symptoms: seq<string>) returns (ok: bool)
      modifies data
      ensures ok <==> forall i :: 0 <= i < data.Length ==> ImpressionIsText(old(data[i]))
      ensures !ok ==> data[..] == old(data[..])
      ensures ok ==> forall i :: 0 <= i < data.Length ==>
        ImpressionIsText(old(data[i])) && data[i] == Derive(search, symptoms, old(data[i]))
    {
      ok := AddAbnormalCxr(search);
      if !ok {
        return;
      }
      ghost var afterCxr := data[..];
      AddNumSymptoms(symptoms);
      ghost var afterCount := data[..];
      AddSeverityScore();
      ghost var afterScore := data[..];
      assert forall i :: 0 <= i < data.Length ==> data[i] == WithSeverityScore(afterCount[i]);
      AddSymSeverity();
      forall i | 0 <= i < data.Length
        ensures ImpressionIsText(old(data[i])) && data[i] == Derive(search, symptoms, old(data[i]))
      {
        assert afterCxr[i] == WithAbnormalCxr(search, old(data[i]));
        assert afterCount[i] == WithNumSymptoms(symptoms, afterCxr[i]);
        assert afterScore[i] == WithSeverityScore(afterCount[i]);
      }
    }

    /** `startClinicalReports` up to the rendering: the fill-rate plot, the
        filters, then the derived columns over the source's symptom list.
        An empty frame ends it at once: the plot divides by the row count
        (`ZeroDivisionError`), or, with no columns either, `filter_pos`
        finds no label column (`KeyError`). A `TypeError` from the vitals
        filter or from the classifier ends it too, with the frame unchanged;
        otherwise every row, in place and in order, becomes `Derive` of
        itself. */
    method StartClinicalReports(search: (string, string) -> bool) returns (report: Report)
      modifies data
      ensures report.Raised? <==>
        old(data.Length) == 0 ||
        FilterPatients(old(data[..]), VITALS, "numeric").Raised? ||
        exists i :: 0 <= i < data.Length && !ImpressionIsText(old(data[i]))
      ensures report.Raised? ==> data[..] == old(data[..])
      ensures report.Completed? ==>
        report.positive == FilterPos(old(data[..])) &&
        FilterPatients(old(data[..]), SYMPTOMS, "bool") == Frame(report.symptomatic) &&
        FilterPatients(old(data[..]), VITALS, "numeric") == Frame(report.withVitals)
      ensures report.Completed? ==>
        forall i :: 0 <= i < data.Length ==>
          ImpressionIsText(old(data[i])) && data[i] == Derive(search, SYMPTOMS, old(data[i]))
    {
      if data.Length == 0 {
        return Report.Raised;
      }
      var positive, symptomatic, withVitals := Filters();
      if withVitals.Raised? {
        return Report.Raised;
      }
      var ok := AddDerivedColumns(search, SYMPTOMS);
      if !ok {
        return Report.Raised;
      }
      report := Completed(positive, symptomatic.rows, withVitals.rows);
    }
  }
}
