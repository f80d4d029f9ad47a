# CovidDiagnosis clinical-report pipeline in Dafny

This project models the rule logic of the CovidDiagnosis clinical reports.
This is the tabular pipeline of `a_utils.py`, driven by
`GetClinicalReports.startClinicalReports`:

- load a frame of patient records;
- compute per-column fill rates, each tagged with the colour category of its
  column;
- filter out three subsets:
  - the positive tests;
  - the symptomatic patients (some symptom column `== True`);
  - the patients with vitals (some vital sign present);
- add four derived columns to the frame in place:
  - `is_abnormal_cxr`, a three-valued regex verdict on the chest X-ray
    impression;
  - `num_symptoms`;
  - `severity_score`, in [-1, 7];
  - `sym_severity`, one of five labels.

Modules, one per file:

| file | module | what |
|---|---|---|
| `cells.dfy` | `Cells` | cells (missing, bool, number, string), rows as maps from column name to cell, frames as sequences of rows; Python's `== True`, `== 0`, `math.isnan` on a cell |
| `columns.dfy` | `Columns` | the column lists and `get_color`'s category, with the lists proved disjoint |
| `row_filters.dfy` | `RowFilters` | `get_percent`, `df[mask]`, `filter_pos`, `is_any_true`, `is_any_nonnull`, `filter_patients` |
| `fill_rates.dfy` | `FillRates` | the numbers behind `plot_fill_rates` |
| `radiology.dfy` | `Radiology` | the pattern lists and `is_abnormal_cxr` |
| `severity.dfy` | `Severity` | `SEVERITY_MAPPINGS`, `get_sym_severity_score`, `get_sym_severity` |
| `clinical_reports.dfy` | `ClinicalReports` | `startClinicalReports`. The class `ClinicalReport` holds the frame as an `array<Row>`, and its methods fill each derived column in a loop. Each method is proved against the per-row function `Derive`. |

Modelling choices:

- **Missing cells.** A column a row does not carry reads as a missing cell.
  This matches how `pd.concat` fills the columns a file lacks.
- **`== True` and `== 0`.** These follow Python, so the number 1 also counts
  as `True`, and `False` counts as `0`.
- **Errors.** A `TypeError` that the source would raise is an explicit
  result:
  - `math.isnan` on a string;
  - `re.search` on an impression that is neither text nor null.
- **Regex matching.** The engine is a parameter,
  `search(pattern, text)`, standing for `re.search(pattern, text)` finding
  a match.
- **Unknown verdict.** `is_abnormal_cxr` returns `None` when it cannot
  decide. That lands in the frame as a missing cell, because pandas reads
  `None` back as null.

The main results:

- Filtering keeps exactly the matching rows, with their multiplicity, in
  order.
- `get_color` picks the first list that holds the column. The lists are
  disjoint, so that category is the only one that holds it.
- A normal-pattern match always wins in the X-ray verdict, and more
  matches never weaken the verdict.
- The severity label is monotone in the score. A row is Asymptomatic
  exactly when no symptom column is `True`, which is exactly when the
  symptomatic filter drops it.
- The derived pass only adds its four columns, and running it twice
  changes nothing.
- Each loop of the report leaves every row equal to `Derive` of the
  original row.

## Model

| member | source | states |
|---|---|---|
| Cells.IsNaN | CovidDiagnosis/users/algorithms/a_utils.py:213 | `math.isnan` raises exactly on a string, and is true exactly on a missing cell |
| Cells.IsTrue | CovidDiagnosis/users/algorithms/a_utils.py:196 | Python's `v == True`: true exactly for `True` and for the number 1; never for a missing cell or a string |
| Cells.IsZero | CovidDiagnosis/users/algorithms/a_utils.py:392 | Python's `v == 0`: true exactly for `False` and for the number 0; never for a missing cell, a string or a `== True` value |
| Columns.ColorCategory | CovidDiagnosis/users/algorithms/a_utils.py:278-290 | the category is one whose list holds the column, no list tested earlier holds it, and `Other` (gray) is returned exactly when no list holds it |
| Columns.ColumnListsDisjoint | CovidDiagnosis/users/algorithms/a_utils.py:25-83 | no column name is in two of the six category lists |
| Columns.ColorCategoryExact | CovidDiagnosis/users/algorithms/a_utils.py:278-290 | a column gets category `k` if and only if it is in `k`'s list, so the order of the tests does not matter |
| RowFilters.GetPercent | CovidDiagnosis/users/algorithms/a_utils.py:118-122 | 0 for a zero total; otherwise the percentage times the total is 100 times the part |
| RowFilters.GetPercentBounds | CovidDiagnosis/users/algorithms/a_utils.py:102-122 | a part of a whole lies in [0, 100] percent; 100 exactly for the whole; 0 exactly for nothing or an empty whole |
| RowFilters.Select | CovidDiagnosis/users/algorithms/a_utils.py:173 | `df[mask]` keeps exactly the rows the mask accepts, each as often as in the input, and never more rows than the input |
| RowFilters.SelectAppend | CovidDiagnosis/users/algorithms/a_utils.py:173 | selection preserves order: it distributes over frames laid end to end |
| RowFilters.SelectAll | CovidDiagnosis/users/algorithms/a_utils.py:173 | the selection is the whole frame if and only if every row passes |
| RowFilters.IsPositive | CovidDiagnosis/users/algorithms/a_utils.py:137 | the mask `data[LABEL] == 'Positive'`: the row's label cell is the string 'Positive' |
| RowFilters.FilterPos | CovidDiagnosis/users/algorithms/a_utils.py:137 | exactly the rows labelled 'Positive' are kept, with their multiplicity |
| RowFilters.IsAnyTrue | CovidDiagnosis/users/algorithms/a_utils.py:196 | true if and only if some listed column `== True` |
| RowFilters.IsAnyNonNull | CovidDiagnosis/users/algorithms/a_utils.py:213 | false if and only if every listed cell is missing; true only when one is present; raises only when a string is met, and never when none is a string |
| RowFilters.IsAnyNonNullFirstPresent | CovidDiagnosis/users/algorithms/a_utils.py:213 | the first present cell decides: true exactly when it is a number or a bool, a `TypeError` exactly when it is a string; later cells are not looked at |
| RowFilters.FilterPatients | CovidDiagnosis/users/algorithms/a_utils.py:165-179 | `None` exactly for an unknown `col_type`; raises exactly under 'numeric' when some row raises; otherwise keeps exactly the rows the chosen predicate accepts, with their multiplicity |
| RowFilters.NoColumnsSelectsNothing | CovidDiagnosis/users/algorithms/a_utils.py:165-173 | with no columns to check, both filters return an empty frame |
| RowFilters.RetentionPercent | CovidDiagnosis/users/algorithms/a_utils.py:174-177 | the logged retention percentage lies in [0, 100] and is 0 for an empty frame |
| FillRates.CountNonNull | CovidDiagnosis/users/algorithms/a_utils.py:310 | the non-null count is at most the row count; 0 exactly when every cell is null; the row count exactly when none is |
| FillRates.CountNonNullAppend | CovidDiagnosis/users/algorithms/a_utils.py:93-99 | counts add up over the concatenated per-file frames |
| FillRates.FillRate | CovidDiagnosis/users/algorithms/a_utils.py:303-310 | the fill rate lies in [0, 1]; 0 exactly for an all-null column; 1 exactly for a column with no nulls |
| FillRates.FillRateBars | CovidDiagnosis/users/algorithms/a_utils.py:309-311 | one bar per column in column order, carrying that column's fill rate and `get_color` category |
| Radiology.AnySearch | CovidDiagnosis/users/algorithms/a_utils.py:361-363 | true if and only if some pattern of the list matches |
| Radiology.IsAbnormalCxr | CovidDiagnosis/users/algorithms/a_utils.py:348-365 | not abnormal exactly when a normal pattern matches; abnormal exactly when none does and an abnormal pattern matches; unknown exactly when no pattern of either list matches |
| Radiology.MoreMatchesNeverWeaken | CovidDiagnosis/users/algorithms/a_utils.py:361-365 | a matcher that finds more patterns never moves the verdict back from not abnormal to abnormal to unknown |
| Severity.Weight | CovidDiagnosis/users/algorithms/a_utils.py:368-372 | `SEVERITY_MAPPINGS.get(v, 0)` lies in [0, 3], and is 0 exactly for a value that is not one of the three severity strings |
| Severity.SymSeverityScore | CovidDiagnosis/users/algorithms/a_utils.py:375-399 | the score lies in [-1, 7], and is -1 exactly when `num_symptoms == 0` |
| Severity.ScoreReads | CovidDiagnosis/users/algorithms/a_utils.py:392-399 | the score depends only on `num_symptoms`, `cough_severity`, `sob_severity` and `fever` |
| Severity.FeverAddsOne | CovidDiagnosis/users/algorithms/a_utils.py:398 | for a row with symptoms, a fever adds exactly one point |
| Severity.ScoreExamples | CovidDiagnosis/users/algorithms/a_utils.py:375-399 | with two symptoms, severe cough, mild shortness of breath and fever score 5 and are labelled Severe |
| Severity.TopScore | CovidDiagnosis/users/algorithms/a_utils.py:375-399 | for any row with symptoms, the score is 7 exactly when cough and shortness of breath are both severe and there is a fever |
| Severity.SymSeverity | CovidDiagnosis/users/algorithms/a_utils.py:424-433 | each of the five labels is returned exactly on its interval: below 0, [0, 1), [1, 2), [2, 3), 3 and above |
| Severity.SymSeverityMonotone | CovidDiagnosis/users/algorithms/a_utils.py:424-433 | a higher score never gets a milder label |
| Severity.LabelText | CovidDiagnosis/users/algorithms/a_utils.py:424-433 | the five strings the source returns, each returned for exactly one label |
| Severity.LabelTextInjective | CovidDiagnosis/users/algorithms/a_utils.py:424-433 | distinct labels are stored as distinct strings |
| Severity.RowSeverityMeaning | CovidDiagnosis/users/algorithms/a_utils.py:402-413 | the documented buckets: Asymptomatic exactly without symptoms; Extremely Mild exactly with symptoms but no weighted cough, no weighted shortness of breath and no fever; a severe cough or severe shortness of breath alone gives Severe |
| ClinicalReports.TristateCell | CovidDiagnosis/users/algorithms/GetClinicalReports.py:25-27 | the stored cell is null exactly for an unknown verdict, `True` exactly for abnormal, `False` exactly for not abnormal |
| ClinicalReports.ImpressionIsText | CovidDiagnosis/users/algorithms/a_utils.py:361 | `re.search` accepts the impression: it is text, or null and never searched (a number or bool would raise `TypeError`) |
| ClinicalReports.WithAbnormalCxr | CovidDiagnosis/users/algorithms/GetClinicalReports.py:24-27 | only `is_abnormal_cxr` is written; a row with an impression gets its verdict; a row without one keeps its cell, which is null if the column is new |
| ClinicalReports.CountTrue | CovidDiagnosis/users/algorithms/GetClinicalReports.py:29-31 | the symptom count is at most the number of listed columns, and is 0 exactly when `is_any_true` is false |
| ClinicalReports.CountTrueAppend | CovidDiagnosis/users/algorithms/GetClinicalReports.py:30 | the count adds up over column lists laid end to end |
| ClinicalReports.CountTrueReads | CovidDiagnosis/users/algorithms/GetClinicalReports.py:30 | the count reads only the listed columns |
| ClinicalReports.CountTrueIgnores | CovidDiagnosis/users/algorithms/GetClinicalReports.py:30 | writing a column outside the list leaves the count unchanged |
| ClinicalReports.WithNumSymptoms | CovidDiagnosis/users/algorithms/GetClinicalReports.py:29-31 | step 2 on one row: the row gains only the column `num_symptoms`, which holds a number in [0, number of symptom columns] that is 0 exactly when no symptom column `== True` |
| ClinicalReports.WithSeverityScore | CovidDiagnosis/users/algorithms/GetClinicalReports.py:32-34 | step 3 on one row: the row gains only the column `severity_score`, which holds a number in [-1, 7] that is -1 exactly when the row's `num_symptoms == 0` |
| ClinicalReports.WithSymSeverity | CovidDiagnosis/users/algorithms/GetClinicalReports.py:35-37 | step 4 on one row: the row gains only the column `sym_severity`, which holds 'Asymptomatic' exactly for a negative stored score and 'Severe' exactly for a score of 3 or more |
| ClinicalReports.Derive | CovidDiagnosis/users/algorithms/GetClinicalReports.py:24-37 | the four steps on one row in source order; the row gains exactly the four derived columns |
| ClinicalReports.SymptomsAreRaw | CovidDiagnosis/users/algorithms/a_utils.py:25-44 | no symptom column is one of the four derived columns |
| ClinicalReports.DeriveAddsColumnsOnly | CovidDiagnosis/users/algorithms/GetClinicalReports.py:24-37 | the pass adds exactly the four derived columns and leaves every other cell as it was |
| ClinicalReports.DeriveNumCell | CovidDiagnosis/users/algorithms/GetClinicalReports.py:29-31 | the stored `num_symptoms` is the count on the original row, between 0 and the number of symptom columns |
| ClinicalReports.DeriveScoreCell | CovidDiagnosis/users/algorithms/GetClinicalReports.py:32-34 | the stored `severity_score` is the score of the row carrying its `num_symptoms` |
| ClinicalReports.DeriveLabelCell | CovidDiagnosis/users/algorithms/GetClinicalReports.py:35-37 | the stored `sym_severity` is the label text of that score |
| ClinicalReports.DeriveScoreColumns | CovidDiagnosis/users/algorithms/GetClinicalReports.py:29-37 | the stored score is a number in [-1, 7], equal to -1 exactly when no symptom column is `True`; the stored label is the label of the stored score |
| ClinicalReports.DeriveAsymptomatic | CovidDiagnosis/users/algorithms/GetClinicalReports.py:29-37 | a row is labelled 'Asymptomatic' exactly when none of its symptom columns `== True` |
| ClinicalReports.DeriveAbnormalColumn | CovidDiagnosis/users/algorithms/GetClinicalReports.py:24-27 | a row with an impression carries its verdict after the whole pass; a row without one keeps its old cell |
| ClinicalReports.ReclassifyStable | CovidDiagnosis/users/algorithms/GetClinicalReports.py:24-27 | reclassifying a derived row changes nothing |
| ClinicalReports.RecountStable | CovidDiagnosis/users/algorithms/GetClinicalReports.py:29-31 | recounting a derived row changes nothing |
| ClinicalReports.RescoreStable | CovidDiagnosis/users/algorithms/GetClinicalReports.py:32-34 | rescoring a derived row changes nothing |
| ClinicalReports.ScoreIgnores | CovidDiagnosis/users/algorithms/a_utils.py:392-399 | the score does not read `severity_score` or `sym_severity`, so writing either leaves it unchanged |
| ClinicalReports.RelabelStable | CovidDiagnosis/users/algorithms/GetClinicalReports.py:35-37 | relabelling a derived row changes nothing |
| ClinicalReports.DeriveIdempotent | CovidDiagnosis/users/algorithms/GetClinicalReports.py:24-37 | running the whole pass twice equals running it once |
| ClinicalReports.SymptomaticAgreesWithSeverity | CovidDiagnosis/users/algorithms/GetClinicalReports.py:21-37 | a row is in the symptomatic subset exactly when the pass does not label it 'Asymptomatic' |
| ClinicalReports.OnsetDayOneCounts | CovidDiagnosis/users/algorithms/GetClinicalReports.py:29-31 | `days_since_symptom_onset` = 1 counts as a symptom, because 1 `== True`; 2 days does not count |
| ClinicalReports.ClinicalReport.constructor | CovidDiagnosis/users/algorithms/GetClinicalReports.py:16 | the report holds a fresh array with the loaded rows |
| ClinicalReports.ClinicalReport.Filters | CovidDiagnosis/users/algorithms/GetClinicalReports.py:20-22 | the three subsets are `filter_pos`, the 'bool' symptom filter and the 'numeric' vitals filter of the frame; the symptom filter always gives a frame; the frame is not changed |
| ClinicalReports.ClinicalReport.AddAbnormalCxr | CovidDiagnosis/users/algorithms/GetClinicalReports.py:24-27 | succeeds exactly when every impression is text or null, and then each row becomes `WithAbnormalCxr` of itself; otherwise the frame is unchanged |
| ClinicalReports.ClinicalReport.AddNumSymptoms | CovidDiagnosis/users/algorithms/GetClinicalReports.py:29-31 | each row becomes `WithNumSymptoms` of itself |
| ClinicalReports.ClinicalReport.AddSeverityScore | CovidDiagnosis/users/algorithms/GetClinicalReports.py:32-34 | each row becomes `WithSeverityScore` of itself |
| ClinicalReports.ClinicalReport.AddSymSeverity | CovidDiagnosis/users/algorithms/GetClinicalReports.py:35-37 | each row becomes `WithSymSeverity` of itself |
| ClinicalReports.ClinicalReport.AddDerivedColumns | CovidDiagnosis/users/algorithms/GetClinicalReports.py:24-37 | the four column steps in order; either the frame is unchanged because an impression is not text, or every row is `Derive` of its old value |
| ClinicalReports.ClinicalReport.StartClinicalReports | CovidDiagnosis/users/algorithms/GetClinicalReports.py:16-37 | raises exactly when the frame is empty (the fill-rate plot divides by the row count, line 19), the vitals filter raises, or an impression is not text, and then the frame is unchanged; otherwise returns the three subsets of the original frame, and every row becomes `Derive` of itself over `SYMPTOMS` |

## Left out

- **Loading.** `open_data` reads the CSV files of a directory. File I/O is
  not modelled: the constructor takes the concatenated rows.
  `CountNonNullAppend` and `SelectAppend` state how counts and selections
  behave across the concatenation.
- **Diagnostic printing.** `print_data_info` (a_utils.py:217-229) only
  prints, so it is not modelled.
- **Logging.** The `logging` calls are not modelled. The retention
  percentage that `filter_patients` logs is modelled (`RetentionPercent`).
- **Plot drawing.** matplotlib/seaborn calls, `add_legend`, `LABELS` and
  `COLOR_PALETTE` are not modelled.
  - `get_color` is modelled up to the palette: it returns the category
    whose palette entry the source looks up.
  - `plot_fill_rates` is modelled as the list of bars it draws.
- **Regex engine.** `re.search` is not modelled. The pattern strings are
  kept verbatim, and the matcher is a parameter.
- **Absent columns.** pandas raises `KeyError` when a whole frame lacks a
  column the code indexes. The model reads such a column as missing
  instead.
- **Numeric types.** pandas dtypes (int64/float64/object) are not
  modelled. Every number is a `real`, and NaN is the missing cell.
- **Rendering.** GetClinicalReports.py:38-42 re-reads one fixed CSV,
  projects ten columns and returns the bound method `df.to_html` without
  calling it.
  This is file I/O plus rendering, so it is not modelled.
- **Views and other files.** The web views, the image classifier and
  everything outside the two files above are not part of this model.
- FillRate: requires a non-empty frame. `plot_fill_rates` divides by the row
  count without a guard (a_utils.py:303-310), so an empty frame with at least
  one column raises `ZeroDivisionError`. A rate of 0 for an empty table,
  which `get_percent` would give, is not what this code does. The model
  follows the code, and leaves the empty frame out rather than inventing a 0.
- FillRateBars: the same non-empty requirement, for the same reason.
- StartClinicalReports: models only the failure of the fill-rate plot on an
  empty frame. The bars it would draw are not part of the report, because
  the plot only displays them.
