/**
 The global cumulative table: rows grouped by date (keys in ascending
 order), each metric summed per date skipping missing cells, then a running
 total down the dates.
 */
module Cumulative {
  import opened Ordering
  import opened Observations
  import opened Totals

  /** The `date` column. */
  function DateColumn(rows: seq<Row>): (col: seq<int>)
    ensures |col| == |rows|
    ensures forall i :: 0 <= i < |rows| ==> col[i] == rows[i].date
  {
    if |rows| == 0 then [] else [rows[0].date] + DateColumn(rows[1..])
  }

  /** The group keys of `groupby('date')`: each date present, once, ascending. */
  function Dates(rows: seq<Row>): (ds: seq<int>)
    ensures forall i, j :: 0 <= i < j < |ds| ==> ds[i] < ds[j]
    ensures forall d :: d in ds <==> d in DateColumn(rows)
  {
    IntLessIsStrictTotalOrder();
    SortedDistinct(DateColumn(rows), IntLess)
  }

  /** The mask `df['date'] == d`. */
  function OnDate(d: int): Row -> bool {
    (x: Row) => x.date == d
  }

  /** The group of date `d`: its rows, in source order. */
  function DateRows(rows: seq<Row>, d: int): (g: seq<Row>)
    ensures forall x :: x in g <==> x in rows && x.date == d
  {
    Where(rows, OnDate(d))
  }

  /** Per-date sums of metric `m`, one for each date of `ds`. */
  function DailyTotals(rows: seq<Row>, ds: seq<int>, m: Metric): (daily: seq<int>)
    ensures |daily| == |ds|
    ensures forall k :: 0 <= k < |ds| ==> daily[k] == NullAsZeroSum(DateRows(rows, ds[k]), m)
  {
    seq(|ds|, k requires 0 <= k < |ds| => Total(DateRows(rows, ds[k]), m))
  }

  /** `cumsum` started from `acc`: element `k` is `acc` plus the first `k + 1` values. */
  function RunningFrom(acc: int, xs: seq<int>): (r: seq<int>)
    decreases |xs|
    ensures |r| == |xs|
    ensures forall k :: 0 <= k < |xs| ==> r[k] == acc + Sum(xs[..k + 1])
  {
    if |xs| == 0 then []
    else
      assert forall k :: 1 <= k < |xs| ==> xs[..k + 1][1..] == xs[1..][..k];
      [acc + xs[0]] + RunningFrom(acc + xs[0], xs[1..])
  }

  function CumSum(xs: seq<int>): (r: seq<int>)
    ensures |r| == |xs|
    ensures forall k :: 0 <= k < |xs| ==> r[k] == Sum(xs[..k + 1])
  {
    RunningFrom(0, xs)
  }

  /** One row of the cumulative table. */
  datatype CumulativeRow = CumulativeRow(date: int, cases: int, deaths: int, vaccinations: int)

  function Field(c: CumulativeRow, m: Metric): int {
    match m
    case NewCases => c.cases
    case NewDeaths => c.deaths
    case NewVaccinations => c.vaccinations
  }

  /** The running totals of metric `m` over the per-date sums of `ds`. */
  function CumulativeColumn(rows: seq<Row>, ds: seq<int>, m: Metric): (col: seq<int>)
    ensures |col| == |ds|
    ensures forall k :: 0 <= k < |ds| ==> col[k] == Sum(DailyTotals(rows, ds, m)[..k + 1])
  {
    CumSum(DailyTotals(rows, ds, m))
  }

  /** Zips the date keys with the three cumulative columns. */
  function Zip(ds: seq<int>, cases: seq<int>, deaths: seq<int>, vaccinations: seq<int>): (table: seq<CumulativeRow>)
    requires |cases| == |deaths| == |vaccinations| == |ds|
    ensures |table| == |ds|
    ensures forall k :: 0 <= k < |ds| ==>
      table[k] == CumulativeRow(ds[k], cases[k], deaths[k], vaccinations[k])
  {
    seq(|ds|, k requires 0 <= k < |ds| => CumulativeRow(ds[k], cases[k], deaths[k], vaccinations[k]))
  }

  function MakeTable(rows: seq<Row>, ds: seq<int>): (table: seq<CumulativeRow>)
    ensures |table| == |ds|
    ensures forall k :: 0 <= k < |ds| ==> table[k].date == ds[k]
  {
    Zip(ds, CumulativeColumn(rows, ds, NewCases), CumulativeColumn(rows, ds, NewDeaths),
      CumulativeColumn(rows, ds, NewVaccinations))
  }

  lemma MakeTableField(rows: seq<Row>, ds: seq<int>, k: int, m: Metric)
    requires 0 <= k < |ds|
    ensures Field(MakeTable(rows, ds)[k], m) == Sum(DailyTotals(rows, ds, m)[..k + 1])
  {
    match m
    case NewCases =>
    case NewDeaths =>
    case NewVaccinations =>
  }

  lemma MakeTableFields(rows: seq<Row>, ds: seq<int>)
    ensures forall k, m :: 0 <= k < |ds| ==>
      Field(MakeTable(rows, ds)[k], m) == Sum(DailyTotals(rows, ds, m)[..k + 1])
  {
    forall k, m | 0 <= k < |ds|
      ensures Field(MakeTable(rows, ds)[k], m) == Sum(DailyTotals(rows, ds, m)[..k + 1])
    {
      MakeTableField(rows, ds, k, m);
    }
  }

  /** `df.groupby('date').agg(sum).cumsum().reset_index()`. */
  function GlobalCumulative(rows: seq<Row>): (table: seq<CumulativeRow>)
    ensures |table| == |Dates(rows)|
    ensures forall k :: 0 <= k < |table| ==> table[k].date == Dates(rows)[k]
    ensures forall i, j :: 0 <= i < j < |table| ==> table[i].date < table[j].date
    ensures forall k, m :: 0 <= k < |table| ==>
      Field(table[k], m) == Sum(DailyTotals(rows, Dates(rows), m)[..k + 1])
  {
    MakeTableFields(rows, Dates(rows));
    MakeTable(rows, Dates(rows))
  }

  // ---------------------------------------------------------------------
  // Prefix sums

  lemma SumPrefixStep(xs: seq<int>, k: int)
    requires 0 <= k < |xs|
    ensures Sum(xs[..k + 1]) == Sum(xs[..k]) + xs[k]
  {
    assert xs[..k + 1] == xs[..k] + [xs[k]];
    SumAppend(xs[..k], [xs[k]]);
  }

  /** A running total grows by the next value at each step. */
  lemma CumSumStep(xs: seq<int>, k: int)
    requires 0 < k < |xs|
    ensures CumSum(xs)[k] == CumSum(xs)[k - 1] + xs[k]
  {
    SumPrefixStep(xs, k);
  }

  /** Running totals of positive values strictly increase. */
  lemma {:induction false} CumSumIncreases(xs: seq<int>)
    requires forall k :: 0 <= k < |xs| ==> xs[k] > 0
    ensures forall i, j :: 0 <= i < j < |xs| ==> CumSum(xs)[i] < CumSum(xs)[j]
  {
    var r := CumSum(xs);
    forall i, j | 0 <= i < j < |xs| ensures r[i] < r[j] {
      CumSumStep(xs, i + 1);
      var k := i + 1;
      while k < j
        invariant i < k <= j
        invariant r[i] < r[k]
      {
        CumSumStep(xs, k + 1);
        k := k + 1;
      }
    }
  }

  /** Running totals of non-negative values never decrease. */
  lemma {:induction false} CumSumNonDecreasing(xs: seq<int>)
    requires forall k :: 0 <= k < |xs| ==> xs[k] >= 0
    ensures forall i, j :: 0 <= i < j < |xs| ==> CumSum(xs)[i] <= CumSum(xs)[j]
  {
    var r := CumSum(xs);
    forall i, j | 0 <= i < j < |xs| ensures r[i] <= r[j] {
      var k := i;
      while k < j
        invariant i <= k <= j
        invariant r[i] <= r[k]
      {
        CumSumStep(xs, k + 1);
        k := k + 1;
      }
    }
  }

  // ---------------------------------------------------------------------
  // Grouping by date partitions the rows

  /** The per-date sums of `ds` are those of its first date followed by those of the rest. */
  lemma DailyTotalsStep(rows: seq<Row>, ds: seq<int>, m: Metric)
    requires |ds| > 0
    ensures DailyTotals(rows, ds, m) == [Total(DateRows(rows, ds[0]), m)] + DailyTotals(rows, ds[1..], m)
  {
  }

  /** Dates that no row carries contribute nothing. */
  lemma {:induction false} DailyTotalsOfAbsentDates(rows: seq<Row>, ds: seq<int>, m: Metric)
    requires forall i, k :: 0 <= i < |rows| && 0 <= k < |ds| ==> rows[i].date != ds[k]
    ensures Sum(DailyTotals(rows, ds, m)) == 0
  {
    if |ds| > 0 {
      DailyTotalsStep(rows, ds, m);
      DailyTotalsOfAbsentDates(rows, ds[1..], m);
      var g := DateRows(rows, ds[0]);
      TotalOfMissing(g, m);
    }
  }

  /** A single row is counted once, under its own date. */
  lemma {:induction false} DailyTotalsOfOneRow(x: Row, ds: seq<int>, m: Metric)
    requires forall i, j :: 0 <= i < j < |ds| ==> ds[i] != ds[j]
    requires x.date in ds
    ensures Sum(DailyTotals([x], ds, m)) == OrZero(Value(x, m))
  {
    DailyTotalsStep([x], ds, m);
    if ds[0] == x.date {
      assert forall k :: 0 <= k < |ds[1..]| ==> ds[1..][k] != x.date;
      DailyTotalsOfAbsentDates([x], ds[1..], m);
      assert DateRows([x], ds[0]) == [x];
    } else {
      DailyTotalsOfOneRow(x, ds[1..], m);
      TotalOfMissing(DateRows([x], ds[0]), m);
    }
  }

  lemma {:induction false} SumPointwise(a: seq<int>, b: seq<int>, c: seq<int>)
    requires |a| == |b| == |c|
    requires forall k :: 0 <= k < |c| ==> c[k] == a[k] + b[k]
    ensures Sum(c) == Sum(a) + Sum(b)
  {
    if |c| > 0 {
      SumPointwise(a[1..], b[1..], c[1..]);
    }
  }

  /** Per-date sums add up over a concatenation of row sequences. */
  lemma DailyTotalsAppend(a: seq<Row>, b: seq<Row>, ds: seq<int>, m: Metric)
    ensures forall k :: 0 <= k < |ds| ==>
      DailyTotals(a + b, ds, m)[k] == DailyTotals(a, ds, m)[k] + DailyTotals(b, ds, m)[k]
  {
    forall k | 0 <= k < |ds|
      ensures DailyTotals(a + b, ds, m)[k] == DailyTotals(a, ds, m)[k] + DailyTotals(b, ds, m)[k]
    {
      WhereAppend(a, b, OnDate(ds[k]));
      TotalAppend(DateRows(a, ds[k]), DateRows(b, ds[k]), m);
    }
  }

  /**
   Summing the per-date totals over a list that holds every date once gives
   the total over all rows.
   */
  lemma {:induction false} DailyTotalsPartition(rows: seq<Row>, ds: seq<int>, m: Metric)
    requires forall i, j :: 0 <= i < j < |ds| ==> ds[i] != ds[j]
    requires forall i :: 0 <= i < |rows| ==> rows[i].date in ds
    ensures Sum(DailyTotals(rows, ds, m)) == Total(rows, m)
  {
    if |rows| == 0 {
      DailyTotalsOfAbsentDates(rows, ds, m);
      TotalOfMissing(rows, m);
    } else {
      var x, rest := rows[0], rows[1..];
      assert rows == [x] + rest;
      DailyTotalsPartition(rest, ds, m);
      DailyTotalsOfOneRow(x, ds, m);
      DailyTotalsAppend([x], rest, ds, m);
      SumPointwise(DailyTotals([x], ds, m), DailyTotals(rest, ds, m), DailyTotals(rows, ds, m));
      TotalAppend([x], rest, m);
    }
  }

  // ---------------------------------------------------------------------
  // Properties of the cumulative table

  /** Every per-date group of the filtered data has a positive case total. */
  lemma DailyCasesPositive(rows: seq<Row>)
    requires forall i :: 0 <= i < |rows| ==> HasPositiveCases(rows[i])
    ensures forall k :: 0 <= k < |Dates(rows)| ==> DailyTotals(rows, Dates(rows), NewCases)[k] > 0
  {
    var ds := Dates(rows);
    forall k | 0 <= k < |ds| ensures DailyTotals(rows, ds, NewCases)[k] > 0 {
      var g := DateRows(rows, ds[k]);
      assert ds[k] in ds;
      var i :| 0 <= i < |rows| && rows[i].date == ds[k];
      assert rows[i] in g;
      forall j | 0 <= j < |g| ensures Value(g[j], NewCases).Some? && Value(g[j], NewCases).value > 0 {
        assert g[j] in g;
        var i' :| 0 <= i' < |rows| && rows[i'] == g[j];
      }
      TotalPositive(g, NewCases);
    }
  }

  /** On the filtered data, cumulative cases strictly increase down the table. */
  lemma CumulativeCasesIncrease(raw: seq<Row>)
    ensures var table := GlobalCumulative(FilterPositive(raw));
      forall i, j :: 0 <= i < j < |table| ==> table[i].cases < table[j].cases
  {
    var rows := FilterPositive(raw);
    assert forall i :: 0 <= i < |rows| ==> HasPositiveCases(rows[i]) by {
      forall i | 0 <= i < |rows| ensures HasPositiveCases(rows[i]) {
        assert rows[i] in rows;
      }
    }
    DailyCasesPositive(rows);
    var table := GlobalCumulative(rows);
    CumSumIncreases(DailyTotals(rows, Dates(rows), NewCases));
    assert forall k :: 0 <= k < |table| ==> table[k].cases == Field(table[k], NewCases);
  }

  /** Per-date sums of values that are missing or non-negative are non-negative. */
  lemma DailyTotalsNonNegative(rows: seq<Row>, ds: seq<int>, m: Metric)
    requires forall i :: 0 <= i < |rows| ==> OrZero(Value(rows[i], m)) >= 0
    ensures forall k :: 0 <= k < |ds| ==> DailyTotals(rows, ds, m)[k] >= 0
  {
    forall k | 0 <= k < |ds| ensures DailyTotals(rows, ds, m)[k] >= 0 {
      var g := DateRows(rows, ds[k]);
      forall j | 0 <= j < |g| ensures OrZero(Value(g[j], m)) >= 0 {
        assert g[j] in g;
      }
      TotalNonNegative(g, m);
    }
  }

  /** A cumulative column whose inputs are missing or non-negative never decreases. */
  lemma CumulativeNonDecreasing(rows: seq<Row>, m: Metric)
    requires forall i :: 0 <= i < |rows| ==> OrZero(Value(rows[i], m)) >= 0
    ensures var table := GlobalCumulative(rows);
      forall i, j :: 0 <= i < j < |table| ==> Field(table[i], m) <= Field(table[j], m)
  {
    var daily := DailyTotals(rows, Dates(rows), m);
    DailyTotalsNonNegative(rows, Dates(rows), m);
    CumSumNonDecreasing(daily);
    var table := GlobalCumulative(rows);
    var running := CumSum(daily);
    assert forall k :: 0 <= k < |table| ==> Field(table[k], m) == running[k];
  }

  /**
   The table is empty exactly when there are no rows, and otherwise its last
   row holds the global totals of every metric.
   */
  lemma CumulativeLastIsTotal(rows: seq<Row>)
    ensures var table := GlobalCumulative(rows);
      (|table| == 0 <==> |rows| == 0) &&
      (|table| > 0 ==> forall m :: Field(table[|table| - 1], m) == Total(rows, m))
  {
    var ds := Dates(rows);
    var table := GlobalCumulative(rows);
    if |rows| > 0 {
      assert rows[0].date in ds;
    }
    if |table| > 0 {
      assert forall i :: 0 <= i < |rows| ==> rows[i].date in ds;
      forall m ensures Field(table[|table| - 1], m) == Total(rows, m) {
        var daily := DailyTotals(rows, ds, m);
        assert daily[..|table| - 1 + 1] == daily;
        DailyTotalsPartition(rows, ds, m);
      }
    }
  }
}
