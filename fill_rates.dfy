/** The numbers behind the fill-rate plot of `plot_fill_rates`: for each
    column the share of rows whose cell is present, with the category its
    bar is coloured by. */
module FillRates {
  import opened Cells
  import opened Columns

  /** `sum(~data[col].isnull())`: how many rows hold a value in `col`. */
  function CountNonNull(t: Table, col: string): (n: nat)
    ensures n <= |t|
    ensures n == 0 <==> forall row :: row in t ==> IsNull(At(row, col))
    ensures n == |t| <==> forall row :: row in t ==> !IsNull(At(row, col))
  {
    if t == [] then 0
    else (if IsNull(At(t[0], col)) then 0 else 1) + CountNonNull(t[1..], col)
  }

  /** Counts add up over frames laid end to end, as `pd.concat` lays out the
      files it reads. */
  lemma {:induction false} CountNonNullAppend(a: Table, b: Table, col: string)
    ensures CountNonNull(a + b, col) == CountNonNull(a, col) + CountNonNull(b, col)
  {
    if a == [] {
      assert a + b == b;
    } else {
      assert (a + b)[1..] == a[1..] + b;
      CountNonNullAppend(a[1..], b, col);
    }
  }

  /** The fill rate of one column: non-null count over row count. The
      source divides without a guard, so an empty frame would raise
      `ZeroDivisionError`; the model asks for a non-empty one. */
  function FillRate(t: Table, col: string): (rate: real)
    requires |t| > 0
    ensures 0.0 <= rate <= 1.0
    ensures rate == 0.0 <==> forall row :: row in t ==> IsNull(At(row, col))
    ensures rate == 1.0 <==> forall row :: row in t ==> !IsNull(At(row, col))
  {
    var n := CountNonNull(t, col);
    Ratio(n as real, |t| as real);
    assert n as real == 0.0 <==> n == 0;
    n as real / |t| as real
  }

  /** A part over a positive whole lies in [0, 1], hitting the ends exactly
      for nothing and for everything. */
  lemma Ratio(n: real, d: real)
    requires 0.0 <= n <= d && d > 0.0
    ensures 0.0 <= n / d <= 1.0
    ensures n / d == 0.0 <==> n == 0.0
    ensures n / d == 1.0 <==> n == d
    ensures (n / d) * d == n
  {
    var q := n / d;
    assert q * d == n;
  }

  /** One bar of the plot: the column, its fill rate and its colour category. */
  datatype Bar = Bar(column: string, rate: real, category: Category)

  /** The `y` and `colors` lists of `plot_fill_rates`, one bar per column in
      the frame's column order. */
  function FillRateBars(t: Table, cols: seq<string>): (bars: seq<Bar>)
    requires |t| > 0
    ensures |bars| == |cols|
    ensures forall i :: 0 <= i < |cols| ==>
      bars[i].column == cols[i] && bars[i].rate == FillRate(t, cols[i]) &&
      0.0 <= bars[i].rate <= 1.0 && bars[i].category == ColorCategory(cols[i])
  {
    seq(|cols|, i requires 0 <= i < |cols| => Bar(cols[i], FillRate(t, cols[i]), ColorCategory(cols[i])))
  }
}
