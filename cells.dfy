/** Cell values of the clinical data frame and the Python comparisons the
    pipeline applies to them. */
module Cells {

  /** One pandas cell. Numeric columns (float64 or int64) hold `Num`; a NaN
      or an empty CSV field is `Missing`. A Python `None` would differ
      from NaN under `math.isnan`, but none reaches a cell this pipeline
      tests with it. */
  datatype Cell = Missing | Bool(b: bool) | Num(x: real) | Str(s: string)

  /** A row of the frame: column name to cell. */
  type Row = map<string, Cell>

  /** A frame: its rows in order. */
  type Table = seq<Row>

  /** The result of an expression that may raise Python's `TypeError`. */
  datatype Outcome<T> = Ok(value: T) | RaisesTypeError

  /** `row[col]`. `pd.concat` fills a column a file lacks with NaN, so a
      column the row does not carry reads as missing. */
  function At(row: Row, col: string): Cell
  {
    if col in row then row[col] else Missing
  }

  /** `pd.isnull(v)`. */
  predicate IsNull(c: Cell)
  {
    c.Missing?
  }

  /** Python's `v == True`. The source writes `== True`, and in Python the
      numbers 1 and 1.0 compare equal to `True`, so a numeric 1 counts too;
      a string or a NaN never does. */
  predicate IsTrue(c: Cell)
    ensures IsTrue(c) ==> !IsNull(c) && !c.Str?
    ensures c.Bool? ==> (IsTrue(c) <==> c.b)
    ensures c.Num? ==> (IsTrue(c) <==> c.x == 1.0)
  {
    c == Bool(true) || c == Num(1.0)
  }

  /** Python's `v == 0`: a numeric zero or `False` (which equals 0). */
  predicate IsZero(c: Cell)
    ensures IsZero(c) ==> !IsNull(c) && !c.Str? && !IsTrue(c)
    ensures c.Bool? ==> (IsZero(c) <==> !c.b)
    ensures c.Num? ==> (IsZero(c) <==> c.x == 0.0)
  {
    c == Bool(false) || c == Num(0.0)
  }

  /** `math.isnan(v)`: defined on numbers and bools (a bool is never NaN),
      raises `TypeError` on a string. */
  function IsNaN(c: Cell): (r: Outcome<bool>)
    ensures r == RaisesTypeError <==> c.Str?
    ensures r == Ok(true) <==> IsNull(c)
  {
    match c
    case Missing => Ok(true)
    case Bool(_) => Ok(false)
    case Num(_) => Ok(false)
    case Str(_) => RaisesTypeError
  }
}
