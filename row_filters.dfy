/** Row selection of the clinical pipeline: `get_percent`, `filter_pos`,
    `filter_patients` and its two row predicates `is_any_true` and
    `is_any_nonnull`. */
module RowFilters {
  import opened Cells
  import opened Columns

  /** `get_percent`: `x` as a percentage of `total`, and 0 when `total` is 0
      instead of dividing by zero. */
  function GetPercent(x: int, total: int): (p: real)
    ensures total == 0 ==> p == 0.0
    ensures total != 0 ==> p * (total as real) == 100.0 * (x as real)
  {
    if total == 0 then 0.0 else (x as real / total as real) * 100.0
  }

  /** A part of a non-empty whole is between 0 and 100 percent of it; the
      whole is exactly 100 and nothing is exactly 0. */
  lemma GetPercentBounds(x: int, total: int)
    requires 0 <= x <= total
    ensures 0.0 <= GetPercent(x, total) <= 100.0
    ensures total > 0 ==> (GetPercent(x, total) == 100.0 <==> x == total)
    ensures GetPercent(x, total) == 0.0 <==> x == 0 || total == 0
  {
    if total > 0 {
      var p := GetPercent(x, total);
      assert p * (total as real) == 100.0 * (x as real);
      assert p * (total as real) <= 100.0 * (total as real);
    }
  }

  /** `df[mask]` for the mask `keep` computes on every row: the rows that
      satisfy it, in their original order. */
  function Select(t: Table, keep: Row -> bool): (r: Table)
    ensures |r| <= |t|
    ensures forall row :: row in r ==> row in t && keep(row)
    ensures forall row :: row in t && keep(row) ==> row in r
    ensures forall row :: multiset(r)[row] == if keep(row) then multiset(t)[row] else 0
  {
    if t == [] then []
    else
      assert t == [t[0]] + t[1..];
      (if keep(t[0]) then [t[0]] else []) + Select(t[1..], keep)
  }

  /** Selection keeps order: selecting from two tables laid end to end is
      selecting from each and laying the results end to end. */
  lemma {:induction false} SelectAppend(a: Table, b: Table, keep: Row -> bool)
    ensures Select(a + b, keep) == Select(a, keep) + Select(b, keep)
  {
    if a == [] {
      assert a + b == b;
    } else {
      assert (a + b)[1..] == a[1..] + b;
      SelectAppend(a[1..], b, keep);
    }
  }

  /** A mask that holds on every row keeps the whole table, and only then. */
  lemma {:induction false} SelectAll(t: Table, keep: Row -> bool)
    ensures Select(t, keep) == t <==> forall row :: row in t ==> keep(row)
  {
    if t != [] {
      SelectAll(t[1..], keep);
      if !keep(t[0]) {
        assert |Select(t, keep)| < |t|;
      }
    }
  }

  /** The row filter of `filter_pos`: the label is the string 'Positive'. */
  predicate IsPositive(row: Row)
    ensures IsPositive(row) ==> LABEL in row && row[LABEL].Str?
  {
    At(row, LABEL) == Str("Positive")
  }

  /** `filter_pos`: exactly the rows labelled 'Positive', each as often as in
      the input (order: `SelectAppend`); every other row is dropped. */
  function FilterPos(t: Table): (r: Table)
    ensures forall row :: row in r ==> IsPositive(row)
    ensures forall row :: row in t && IsPositive(row) ==> row in r
    ensures forall row :: multiset(r)[row] == if IsPositive(row) then multiset(t)[row] else 0
  {
    Select(t, IsPositive)
  }

  /** `is_any_true`: some listed column `== True`; false for no columns. */
  function IsAnyTrue(row: Row, cols: seq<string>): (r: bool)
    ensures r <==> exists col :: col in cols && IsTrue(At(row, col))
  {
    if cols == [] then false
    else IsTrue(At(row, cols[0])) || IsAnyTrue(row, cols[1..])
  }

  /** `is_any_nonnull`: `any(not math.isnan(row[col]) ...)`. The scan stops
      at the first present value; a string met before one raises. */
  function IsAnyNonNull(row: Row, cols: seq<string>): (r: Outcome<bool>)
    ensures r == Ok(false) <==> forall col :: col in cols ==> IsNull(At(row, col))
    ensures r == Ok(true) ==> exists col :: col in cols && !IsNull(At(row, col))
    ensures (forall col :: col in cols ==> !At(row, col).Str?) ==> r.Ok?
    ensures r.RaisesTypeError? ==> exists col :: col in cols && At(row, col).Str?
  {
    if cols == [] then Ok(false)
    else
      match IsNaN(At(row, cols[0]))
      case RaisesTypeError => Outcome.RaisesTypeError
      case Ok(nan) => if !nan then Ok(true) else IsAnyNonNull(row, cols[1..])
  }

  /** The first present cell decides `is_any_nonnull`: it is true when
      that cell is a number or a bool, and raises when it is a string;
      later cells are never looked at. */
  lemma {:induction false} IsAnyNonNullFirstPresent(row: Row, cols: seq<string>)
    ensures IsAnyNonNull(row, cols) == Ok(true) <==>
      exists i :: 0 <= i < |cols| && FirstPresentAt(row, cols, i) && !At(row, cols[i]).Str?
    ensures IsAnyNonNull(row, cols).RaisesTypeError? <==>
      exists i :: 0 <= i < |cols| && FirstPresentAt(row, cols, i) && At(row, cols[i]).Str?
  {
    if cols != [] {
      IsAnyNonNullFirstPresent(row, cols[1..]);
      var c := At(row, cols[0]);
      if !IsNull(c) {
        assert FirstPresentAt(row, cols, 0);
        forall i | 0 < i < |cols|
          ensures !FirstPresentAt(row, cols, i)
        {
          assert 0 <= 0 < i;
        }
      } else {
        forall i | 0 < i < |cols|
          ensures FirstPresentAt(row, cols, i) <==> FirstPresentAt(row, cols[1..], i - 1)
        {
          if FirstPresentAt(row, cols[1..], i - 1) {
            forall j | 0 <= j < i
              ensures IsNull(At(row, cols[j]))
            {
              if j > 0 {
                assert cols[j] == cols[1..][j - 1];
              }
            }
          }
          if FirstPresentAt(row, cols, i) {
            forall j | 0 <= j < i - 1
              ensures IsNull(At(row, cols[1..][j]))
            {
              assert cols[1..][j] == cols[j + 1];
            }
          }
        }
        assert !FirstPresentAt(row, cols, 0);
        if exists i :: 0 <= i < |cols[1..]| && FirstPresentAt(row, cols[1..], i) && !At(row, cols[1..][i]).Str? {
          var i :| 0 <= i < |cols[1..]| && FirstPresentAt(row, cols[1..], i) && !At(row, cols[1..][i]).Str?;
          assert FirstPresentAt(row, cols, i + 1);
        }
        if exists i :: 0 <= i < |cols[1..]| && FirstPresentAt(row, cols[1..], i) && At(row, cols[1..][i]).Str? {
          var i :| 0 <= i < |cols[1..]| && FirstPresentAt(row, cols[1..], i) && At(row, cols[1..][i]).Str?;
          assert FirstPresentAt(row, cols, i + 1);
        }
      }
    }
  }

  /** Column `i` holds the first present cell of the list. */
  predicate FirstPresentAt(row: Row, cols: seq<string>, i: int)
    requires 0 <= i < |cols|
  {
    !IsNull(At(row, cols[i])) && forall j :: 0 <= j < i ==> IsNull(At(row, cols[j]))
  }

  /** What `filter_patients` gives back. */
  datatype FilterResult =
    | Frame(rows: Table)   // the filtered frame
    | NoFrame              // `None`, for an unknown `col_type`
    | Raised               // `is_any_nonnull` raised `TypeError` on some row

  /** The row predicate `filter_patients` applies under `col_type`
      'numeric' (only consulted when no row raises). */
  predicate HasNonNull(cols: seq<string>, row: Row)
  {
    IsAnyNonNull(row, cols) == Ok(true)
  }

  /** `filter_patients`: under 'bool' the rows for which `is_any_true` holds,
      under 'numeric' those for which `is_any_nonnull` holds, each in order;
      `None` for any other `col_type`. `df.apply` propagates the first
      `TypeError` a row raises, so then no frame comes back at all. */
  function FilterPatients(t: Table, cols: seq<string>, colType: string): (r: FilterResult)
    ensures r.NoFrame? <==> colType != "bool" && colType != "numeric"
    ensures r.Raised? <==>
      colType == "numeric" && exists i :: 0 <= i < |t| && IsAnyNonNull(t[i], cols).RaisesTypeError?
    ensures r.Frame? && colType == "bool" ==>
      forall row :: multiset(r.rows)[row] == if IsAnyTrue(row, cols) then multiset(t)[row] else 0
    ensures r.Frame? && colType == "numeric" ==>
      forall row :: multiset(r.rows)[row] == if HasNonNull(cols, row) then multiset(t)[row] else 0
  {
    if colType == "bool" then
      Frame(Select(t, row => IsAnyTrue(row, cols)))
    else if colType == "numeric" then
      if exists i :: 0 <= i < |t| && IsAnyNonNull(t[i], cols).RaisesTypeError? then Raised
      else Frame(Select(t, row => HasNonNull(cols, row)))
    else NoFrame
  }

  /** With no columns to look at, no row shows anything: both filters drop
      every row. */
  lemma NoColumnsSelectsNothing(t: Table, colType: string)
    requires colType == "bool" || colType == "numeric"
    ensures FilterPatients(t, [], colType) == Frame([])
  {
  }

  /** The retention figure `filter_patients` logs is a percentage between 0
      and 100, and 0 for an empty frame. */
  lemma RetentionPercent(t: Table, cols: seq<string>, colType: string)
    requires FilterPatients(t, cols, colType).Frame?
    ensures 0.0 <= GetPercent(|FilterPatients(t, cols, colType).rows|, |t|) <= 100.0
    ensures t == [] ==> GetPercent(|FilterPatients(t, cols, colType).rows|, |t|) == 0.0
  {
    GetPercentBounds(|FilterPatients(t, cols, colType).rows|, |t|);
  }
}
