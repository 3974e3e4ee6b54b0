/**
 A worked three-row dataset: two days of "Canada" and one of "USA", all
 with positive new cases. Day ordinal 18628 is 2021-01-01.
 */
module Scenario {
  import opened Wrappers
  import opened Ordering
  import opened Observations
  import opened Totals
  import opened Regions
  import opened Cumulative
  import opened Dashboard

  function Feed(): seq<Row> {
    [ Row("Canada", 18628, Some(10), Some(1), Some(0)),
      Row("Canada", 18629, Some(20), Some(2), Some(5)),
      Row("USA", 18628, Some(5), Some(0), Some(0)) ]
  }

  lemma FeedFilterKeepsAll()
    ensures FilterPositive(Feed()) == Feed()
  {
    WhereAll(Feed(), HasPositiveCases);
  }

  /** The three totals of a two-row sequence, all values present. */
  lemma TotalsOfTwo(a: Row, b: Row)
    requires a.newCases.Some? && a.newDeaths.Some? && a.newVaccinations.Some?
    requires b.newCases.Some? && b.newDeaths.Some? && b.newVaccinations.Some?
    ensures MetricTotals([a, b]) == Totals(
      a.newCases.value + b.newCases.value,
      a.newDeaths.value + b.newDeaths.value,
      a.newVaccinations.value + b.newVaccinations.value)
  {
    NullAsZeroOfTwo(a, b, NewCases);
    NullAsZeroOfTwo(a, b, NewDeaths);
    NullAsZeroOfTwo(a, b, NewVaccinations);
  }

  /** The three totals of a single row, all values present. */
  lemma TotalsOfOne(a: Row)
    requires a.newCases.Some? && a.newDeaths.Some? && a.newVaccinations.Some?
    ensures MetricTotals([a]) == Totals(a.newCases.value, a.newDeaths.value, a.newVaccinations.value)
  {
    NullAsZeroOfOne(a, NewCases);
    NullAsZeroOfOne(a, NewDeaths);
    NullAsZeroOfOne(a, NewVaccinations);
  }

  lemma NullAsZeroOfOne(a: Row, m: Metric)
    ensures NullAsZeroSum([a], m) == OrZero(Value(a, m))
  {
    assert [a][1..] == [];
  }

  lemma NullAsZeroOfTwo(a: Row, b: Row, m: Metric)
    ensures NullAsZeroSum([a, b], m) == OrZero(Value(a, m)) + OrZero(Value(b, m))
  {
    assert [a, b][1..] == [b];
    NullAsZeroOfOne(b, m);
  }

  /** Boolean indexing of a three-row sequence. */
  lemma WhereOfThree(a: Row, b: Row, c: Row, keep: Row -> bool)
    ensures Where([a, b, c], keep) ==
      (if keep(a) then [a] else []) + (if keep(b) then [b] else []) + (if keep(c) then [c] else [])
  {
    var ka, kb, kc := (if keep(a) then [a] else []), (if keep(b) then [b] else []), (if keep(c) then [c] else []);
    assert [c][1..] == [];
    assert Where([c], keep) == kc + Where([], keep) == kc;
    assert [b, c][1..] == [c];
    assert Where([b, c], keep) == kb + kc;
    assert [a, b, c][1..] == [b, c];
    assert Where([a, b, c], keep) == ka + (kb + kc);
  }

  lemma FeedCountryTotals()
    ensures MetricTotals(CountryRows(Feed(), "Canada")) == Totals(30, 3, 5)
  {
    var rows := Feed();
    var keep := LocationIs("Canada");
    assert rows[2..] == [rows[2]];
    assert Where(rows[2..], keep) == [] by {
      assert rows[2..][1..] == [];
    }
    assert rows[1..][1..] == rows[2..];
    assert Where(rows[1..], keep) == [rows[1]];
    assert Where(rows, keep) == [rows[0], rows[1]];
    TotalsOfTwo(rows[0], rows[1]);
  }

  lemma FeedDates(rows: seq<Row>)
    requires rows == Feed()
    ensures Dates(rows) == [18628, 18629]
  {
    IntLessIsStrictTotalOrder();
    var ds := Dates(rows);
    assert DateColumn(rows) == [18628, 18629, 18628];
    assert StrictlyAscending(ds, IntLess);
    AscendingUnique(ds, [18628, 18629], IntLess);
  }

  /** The running totals of a two-element list. */
  lemma CumSumOfTwo(x: int, y: int)
    ensures CumSum([x, y]) == [x, x + y]
  {
    assert [x, y][..1] == [x];
    assert [x, y][..2] == [x, y];
    assert Sum([x]) == x by {
      assert [x][1..] == [];
    }
    assert Sum([x, y]) == x + y by {
      assert [x, y][1..] == [y];
      assert [y][1..] == [];
    }
    var r := CumSum([x, y]);
    assert r[0] == x && r[1] == x + y;
  }

  /** Per-date sums over two dates. */
  lemma DailyTotalsOfTwo(rows: seq<Row>, d1: int, d2: int, m: Metric)
    ensures DailyTotals(rows, [d1, d2], m) ==
      [Total(DateRows(rows, d1), m), Total(DateRows(rows, d2), m)]
  {
    assert [d1, d2][1..] == [d2];
    assert [d2][1..] == [];
  }

  /** The cumulative table of data spanning two dates. */
  lemma TableOfTwo(rows: seq<Row>, d1: int, d2: int, t1: Totals, t2: Totals)
    requires MetricTotals(DateRows(rows, d1)) == t1
    requires MetricTotals(DateRows(rows, d2)) == t2
    ensures MakeTable(rows, [d1, d2]) == [
      CumulativeRow(d1, t1.cases, t1.deaths, t1.vaccinations),
      CumulativeRow(d2, t1.cases + t2.cases, t1.deaths + t2.deaths,
                    t1.vaccinations + t2.vaccinations)]
  {
    var ds := [d1, d2];
    DailyTotalsOfTwo(rows, d1, d2, NewCases);
    DailyTotalsOfTwo(rows, d1, d2, NewDeaths);
    DailyTotalsOfTwo(rows, d1, d2, NewVaccinations);
    CumSumOfTwo(t1.cases, t2.cases);
    CumSumOfTwo(t1.deaths, t2.deaths);
    CumSumOfTwo(t1.vaccinations, t2.vaccinations);
    var cases := CumulativeColumn(rows, ds, NewCases);
    var deaths := CumulativeColumn(rows, ds, NewDeaths);
    var vaccinations := CumulativeColumn(rows, ds, NewVaccinations);
    assert cases[0] == t1.cases && cases[1] == t1.cases + t2.cases;
    assert deaths[0] == t1.deaths && deaths[1] == t1.deaths + t2.deaths;
    assert vaccinations[0] == t1.vaccinations && vaccinations[1] == t1.vaccinations + t2.vaccinations;
    var t := Zip(ds, cases, deaths, vaccinations);
    var row0 := CumulativeRow(d1, t1.cases, t1.deaths, t1.vaccinations);
    var row1 := CumulativeRow(d2, t1.cases + t2.cases, t1.deaths + t2.deaths,
                              t1.vaccinations + t2.vaccinations);
    assert t[0] == row0;
    assert t[1] == row1;
    assert MakeTable(rows, ds) == t == [t[0], t[1]];
  }

  /** The feed's two date groups. */
  lemma FeedGroups(rows: seq<Row>)
    requires rows == Feed()
    ensures DateRows(rows, 18628) == [rows[0], rows[2]]
    ensures DateRows(rows, 18629) == [rows[1]]
  {
    assert rows == [rows[0], rows[1], rows[2]];
    WhereOfThree(rows[0], rows[1], rows[2], OnDate(18628));
    WhereOfThree(rows[0], rows[1], rows[2], OnDate(18629));
  }

  /** The cumulative table of data whose dates are exactly `d1 < d2`. */
  lemma CumulativeOfTwoDates(rows: seq<Row>, d1: int, d2: int, t1: Totals, t2: Totals)
    requires Dates(rows) == [d1, d2]
    requires MetricTotals(DateRows(rows, d1)) == t1
    requires MetricTotals(DateRows(rows, d2)) == t2
    ensures GlobalCumulative(rows) == [
      CumulativeRow(d1, t1.cases, t1.deaths, t1.vaccinations),
      CumulativeRow(d2, t1.cases + t2.cases, t1.deaths + t2.deaths,
                    t1.vaccinations + t2.vaccinations)]
  {
    assert GlobalCumulative(rows) == MakeTable(rows, Dates(rows));
    TableOfTwo(rows, d1, d2, t1, t2);
  }

  /** The per-date totals of the feed. */
  lemma FeedDailyTotals(rows: seq<Row>)
    requires rows == Feed()
    ensures MetricTotals(DateRows(rows, 18628)) == Totals(15, 1, 0)
    ensures MetricTotals(DateRows(rows, 18629)) == Totals(20, 2, 5)
  {
    FeedGroups(rows);
    TotalsOfTwo(rows[0], rows[2]);
    TotalsOfOne(rows[1]);
  }

  lemma FeedCumulative(rows: seq<Row>)
    requires rows == Feed()
    ensures GlobalCumulative(rows) ==
      [CumulativeRow(18628, 15, 1, 0), CumulativeRow(18629, 35, 3, 5)]
  {
    FeedDates(rows);
    FeedDailyTotals(rows);
    CumulativeOfTwoDates(rows, 18628, 18629, Totals(15, 1, 0), Totals(20, 2, 5));
  }

  /** The feed has a positive "Canada" row, so the page renders. */
  lemma FeedRenders(countries: seq<string>)
    ensures Render(Feed(), "Canada", countries).Ok?
  {
    var raw := Feed();
    assert raw[0].location == DefaultRegion && HasPositiveCases(raw[0]);
  }

  /** Without a positive "Canada" row the default-index lookup raises. */
  lemma NoCanadaFails(country: string, countries: seq<string>)
    ensures Render([Row("USA", 18628, Some(5), None, None), Row("Canada", 18628, None, None, None)],
                   country, countries) == Err(ValueError(DefaultRegion))
  {
    var raw := [Row("USA", 18628, Some(5), None, None), Row("Canada", 18628, None, None, None)];
    assert forall i :: 0 <= i < |raw| ==> !(raw[i].location == DefaultRegion && HasPositiveCases(raw[i]));
  }
}
