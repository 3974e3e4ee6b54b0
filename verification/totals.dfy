/**
 Metric totals `df[col].dropna().sum()`: drop the missing cells of a column,
 then add up what is left.
 */
module Totals {
  import opened Wrappers
  import opened Observations

  /** The column of metric `m`, one cell per row. */
  function Column(rows: seq<Row>, m: Metric): (col: seq<Option<int>>)
    ensures |col| == |rows|
    ensures forall i :: 0 <= i < |rows| ==> col[i] == Value(rows[i], m)
  {
    if |rows| == 0 then [] else [Value(rows[0], m)] + Column(rows[1..], m)
  }

  /** `Series.dropna()`: the present values, in order. */
  function DropNa(cells: seq<Option<int>>): (vs: seq<int>)
    ensures |vs| <= |cells|
    ensures forall v :: v in vs <==> Some(v) in cells
  {
    if |cells| == 0 then []
    else
      assert forall c :: c in cells <==> c == cells[0] || c in cells[1..];
      match cells[0]
      case None => DropNa(cells[1..])
      case Some(v) => [v] + DropNa(cells[1..])
  }

  /**
   `dropna()` decides cell by cell: dropping from a concatenation is
   concatenating what is kept of each part, so every present cell is kept,
   repeated values included, in order.
   */
  lemma {:induction false} DropNaAppend(a: seq<Option<int>>, b: seq<Option<int>>)
    ensures DropNa(a + b) == DropNa(a) + DropNa(b)
  {
    if |a| == 0 {
      assert a + b == b;
    } else {
      assert (a + b)[1..] == a[1..] + b;
      DropNaAppend(a[1..], b);
    }
  }

  function Sum(xs: seq<int>): int {
    if |xs| == 0 then 0 else xs[0] + Sum(xs[1..])
  }

  /**
   The total of one metric over a row sequence, as the dashboard computes it:
   dropping the missing cells and summing equals counting them as zero.
   */
  function Total(rows: seq<Row>, m: Metric): (t: int)
    ensures t == NullAsZeroSum(rows, m)
  {
    SumDropNaColumn(rows, m);
    Sum(DropNa(Column(rows, m)))
  }

  /** A missing value counted as zero. */
  function OrZero(v: Option<int>): int {
    match v
    case None => 0
    case Some(n) => n
  }

  /** Reference total: every row contributes its value, or 0 where it is missing. */
  function NullAsZeroSum(rows: seq<Row>, m: Metric): int {
    if |rows| == 0 then 0 else OrZero(Value(rows[0], m)) + NullAsZeroSum(rows[1..], m)
  }

  lemma {:induction false} SumAppend(a: seq<int>, b: seq<int>)
    ensures Sum(a + b) == Sum(a) + Sum(b)
  {
    if |a| == 0 {
      assert a + b == b;
    } else {
      assert (a + b)[1..] == a[1..] + b;
      SumAppend(a[1..], b);
    }
  }

  lemma {:induction false} SumDropNaColumn(rows: seq<Row>, m: Metric)
    ensures Sum(DropNa(Column(rows, m))) == NullAsZeroSum(rows, m)
  {
    if |rows| > 0 {
      SumDropNaColumn(rows[1..], m);
      assert Column(rows, m)[1..] == Column(rows[1..], m);
    }
  }

  /** The total of a concatenation is the sum of the totals. */
  lemma {:induction false} TotalAppend(a: seq<Row>, b: seq<Row>, m: Metric)
    ensures Total(a + b, m) == Total(a, m) + Total(b, m)
  {
    NullAsZeroAppend(a, b, m);
  }

  lemma {:induction false} NullAsZeroAppend(a: seq<Row>, b: seq<Row>, m: Metric)
    ensures NullAsZeroSum(a + b, m) == NullAsZeroSum(a, m) + NullAsZeroSum(b, m)
  {
    if |a| == 0 {
      assert a + b == b;
    } else {
      assert (a + b)[1..] == a[1..] + b;
      NullAsZeroAppend(a[1..], b, m);
    }
  }

  /** An empty selection, or one whose cells are all missing, totals 0. */
  lemma {:induction false} TotalOfMissing(rows: seq<Row>, m: Metric)
    requires forall i :: 0 <= i < |rows| ==> Value(rows[i], m).None?
    ensures Total(rows, m) == 0
  {
    if |rows| > 0 {
      TotalOfMissing(rows[1..], m);
      assert Column(rows, m)[1..] == Column(rows[1..], m);
    }
  }

  /** Totals of values that are missing or non-negative are non-negative. */
  lemma {:induction false} TotalNonNegative(rows: seq<Row>, m: Metric)
    requires forall i :: 0 <= i < |rows| ==> OrZero(Value(rows[i], m)) >= 0
    ensures Total(rows, m) >= 0
  {
    NullAsZeroNonNegative(rows, m);
  }

  lemma {:induction false} NullAsZeroNonNegative(rows: seq<Row>, m: Metric)
    requires forall i :: 0 <= i < |rows| ==> OrZero(Value(rows[i], m)) >= 0
    ensures NullAsZeroSum(rows, m) >= 0
  {
    if |rows| > 0 {
      NullAsZeroNonNegative(rows[1..], m);
    }
  }

  /** A non-empty selection whose values are all present and positive has a positive total. */
  lemma {:induction false} TotalPositive(rows: seq<Row>, m: Metric)
    requires |rows| > 0
    requires forall i :: 0 <= i < |rows| ==> Value(rows[i], m).Some? && Value(rows[i], m).value > 0
    ensures Total(rows, m) > 0
  {
    NullAsZeroNonNegative(rows[1..], m);
  }

  /** The three dashboard totals of a row sequence. */
  datatype Totals = Totals(cases: int, deaths: int, vaccinations: int)

  function MetricTotals(rows: seq<Row>): (t: Totals)
    ensures t.cases == NullAsZeroSum(rows, NewCases)
    ensures t.deaths == NullAsZeroSum(rows, NewDeaths)
    ensures t.vaccinations == NullAsZeroSum(rows, NewVaccinations)
    ensures |rows| == 0 ==> t == Totals(0, 0, 0)
  {
    Totals(Total(rows, NewCases), Total(rows, NewDeaths), Total(rows, NewVaccinations))
  }
}
