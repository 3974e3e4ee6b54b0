/**
 Observation rows and boolean-mask row selection (`df[mask]`), including the
 positive-new-cases filter applied when the dataset is loaded.
 */
module Observations {
  import opened Wrappers

  /**
   One (region, date) sample of the feed. The date is an already parsed day
   ordinal; each metric is `None` where the feed cell is empty (NaN).
   */
  datatype Row = Row(
    location: string,
    date: int,
    newCases: Option<int>,
    newDeaths: Option<int>,
    newVaccinations: Option<int>)

  /** The three metric columns the pipeline aggregates. */
  datatype Metric = NewCases | NewDeaths | NewVaccinations

  function Value(r: Row, m: Metric): Option<int> {
    match m
    case NewCases => r.newCases
    case NewDeaths => r.newDeaths
    case NewVaccinations => r.newVaccinations
  }

  /**
   Boolean indexing: the rows for which `keep` holds, in their original
   order.
   */
  function Where(rows: seq<Row>, keep: Row -> bool): (r: seq<Row>)
    ensures |r| <= |rows|
    ensures forall x :: x in r <==> x in rows && keep(x)
  {
    if |rows| == 0 then []
    else
      assert forall x :: x in rows <==> x == rows[0] || x in rows[1..];
      (if keep(rows[0]) then [rows[0]] else []) + Where(rows[1..], keep)
  }

  /** `a` occurs in `b` in order, possibly with gaps (greedy matching). */
  predicate IsSubsequence(a: seq<Row>, b: seq<Row>)
    decreases |b|
  {
    if |a| == 0 then true
    else if |b| == 0 then false
    else if a[0] == b[0] then IsSubsequence(a[1..], b[1..])
    else IsSubsequence(a, b[1..])
  }

  /** Selection keeps the original relative order of the rows. */
  lemma {:induction false} WhereIsSubsequence(rows: seq<Row>, keep: Row -> bool)
    ensures IsSubsequence(Where(rows, keep), rows)
  {
    if |rows| > 0 {
      WhereIsSubsequence(rows[1..], keep);
      var rest := Where(rows[1..], keep);
      if keep(rows[0]) {
        assert Where(rows, keep) == [rows[0]] + rest;
        assert ([rows[0]] + rest)[1..] == rest;
      } else {
        assert Where(rows, keep) == rest;
        if |rest| > 0 {
          assert rest[0] in rest;
          assert rest[0] != rows[0];
        }
      }
    }
  }

  /** Selection distributes over concatenation: it works row by row. */
  lemma {:induction false} WhereAppend(a: seq<Row>, b: seq<Row>, keep: Row -> bool)
    ensures Where(a + b, keep) == Where(a, keep) + Where(b, keep)
  {
    if |a| == 0 {
      assert a + b == b;
    } else {
      assert (a + b)[0] == a[0];
      assert (a + b)[1..] == a[1..] + b;
      WhereAppend(a[1..], b, keep);
    }
  }

  /** A mask that holds for every row keeps the whole sequence. */
  lemma {:induction false} WhereAll(rows: seq<Row>, keep: Row -> bool)
    requires forall i :: 0 <= i < |rows| ==> keep(rows[i])
    ensures Where(rows, keep) == rows
  {
    if |rows| > 0 {
      WhereAll(rows[1..], keep);
      assert rows == [rows[0]] + rows[1..];
    }
  }

  /** Selecting again with the same mask changes nothing. */
  lemma WhereIdempotent(rows: seq<Row>, keep: Row -> bool)
    ensures Where(Where(rows, keep), keep) == Where(rows, keep)
  {
    var w := Where(rows, keep);
    assert forall i :: 0 <= i < |w| ==> w[i] in w;
    WhereAll(w, keep);
  }

  // ---------------------------------------------------------------------
  // The load-time filter `df[df['new_cases'] > 0]`.

  /** `new_cases > 0`, where a missing value compares false. */
  predicate HasPositiveCases(r: Row) {
    match r.newCases
    case None => false
    case Some(n) => n > 0
  }

  function FilterPositive(rows: seq<Row>): (r: seq<Row>)
    ensures forall x :: x in r ==> x.newCases.Some? && x.newCases.value > 0
    ensures forall x :: x in rows ==>
      (x in r <==> x.newCases.Some? && x.newCases.value > 0)
    ensures IsSubsequence(r, rows)
  {
    WhereIsSubsequence(rows, HasPositiveCases);
    Where(rows, HasPositiveCases)
  }

  /** Filtering an already filtered dataset returns it unchanged. */
  lemma FilterPositiveIdempotent(rows: seq<Row>)
    ensures FilterPositive(FilterPositive(rows)) == FilterPositive(rows)
  {
    WhereIdempotent(rows, HasPositiveCases);
  }

  /** The filter decides row by row: it commutes with concatenation. */
  lemma FilterPositiveAppend(a: seq<Row>, b: seq<Row>)
    ensures FilterPositive(a + b) == FilterPositive(a) + FilterPositive(b)
  {
    WhereAppend(a, b, HasPositiveCases);
  }
}
