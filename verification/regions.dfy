/**
 Region selection: the sorted list of distinct locations offered by the
 selectors, the position of the default region in it, and the rows of one
 selected region or of a set of selected regions.
 */
module Regions {
  import opened Wrappers
  import opened Ordering
  import opened Observations

  /** The region the single-region selector starts on. */
  const DefaultRegion: string := "Canada"

  /** The `location` column. */
  function Locations(rows: seq<Row>): (locs: seq<string>)
    ensures |locs| == |rows|
    ensures forall i :: 0 <= i < |rows| ==> locs[i] == rows[i].location
  {
    if |rows| == 0 then [] else [rows[0].location] + Locations(rows[1..])
  }

  /** `sorted(df['location'].unique())`. */
  function RegionList(rows: seq<Row>): (regions: seq<string>)
    ensures StrictlyAscending(regions, StringLess)
    ensures forall i, j :: 0 <= i < j < |regions| ==> regions[i] != regions[j]
    ensures forall c :: c in regions <==> exists i :: 0 <= i < |rows| && rows[i].location == c
  {
    StringLessIsStrictTotalOrder();
    var regions := SortedDistinct(Locations(rows), StringLess);
    AscendingDistinct(regions, StringLess);
    assert forall c :: c in Locations(rows) <==> exists i :: 0 <= i < |rows| && rows[i].location == c by {
      forall c | c in Locations(rows) ensures exists i :: 0 <= i < |rows| && rows[i].location == c {
        var i :| 0 <= i < |rows| && Locations(rows)[i] == c;
      }
    }
    regions
  }

  /**
   The region list is the only strictly ascending list of exactly the
   locations present: any other such list equals it.
   */
  lemma RegionListUnique(rows: seq<Row>, other: seq<string>)
    requires StrictlyAscending(other, StringLess)
    requires forall c :: c in other <==> exists i :: 0 <= i < |rows| && rows[i].location == c
    ensures other == RegionList(rows)
  {
    StringLessIsStrictTotalOrder();
    AscendingUnique(other, RegionList(rows), StringLess);
  }

  /** Python's `list.index`: the first position of `x`, or `None` where it raises `ValueError`. */
  function IndexOf(xs: seq<string>, x: string): (r: Option<nat>)
    ensures r.None? <==> x !in xs
    ensures r.Some? ==> r.value < |xs| && xs[r.value] == x
    ensures r.Some? ==> forall j :: 0 <= j < r.value ==> xs[j] != x
  {
    if |xs| == 0 then None
    else if xs[0] == x then Some(0)
    else
      match IndexOf(xs[1..], x)
      case None => None
      case Some(k) => Some(k + 1)
  }

  /** The selector's starting index: the position of "Canada" in the region list. */
  function DefaultIndex(rows: seq<Row>): (r: Option<nat>)
    ensures r.Some? <==> exists i :: 0 <= i < |rows| && rows[i].location == DefaultRegion
    ensures r.Some? ==> r.value < |RegionList(rows)| && RegionList(rows)[r.value] == DefaultRegion
  {
    IndexOf(RegionList(rows), DefaultRegion)
  }

  /** The mask `df['location'] == country`. */
  function LocationIs(country: string): Row -> bool {
    (x: Row) => x.location == country
  }

  /** The mask `df['location'].isin(countries)`. */
  function LocationIn(countries: seq<string>): Row -> bool {
    (x: Row) => x.location in countries
  }

  /** `df[df['location'] == country]`. */
  function CountryRows(rows: seq<Row>, country: string): (r: seq<Row>)
    ensures forall x :: x in r <==> x in rows && x.location == country
    ensures IsSubsequence(r, rows)
  {
    WhereIsSubsequence(rows, LocationIs(country));
    Where(rows, LocationIs(country))
  }

  /** `df[df['location'].isin(countries)]`. */
  function ComparisonRows(rows: seq<Row>, countries: seq<string>): (r: seq<Row>)
    ensures forall x :: x in r <==> x in rows && x.location in countries
    ensures IsSubsequence(r, rows)
    ensures |countries| == 0 ==> r == []
  {
    WhereIsSubsequence(rows, LocationIn(countries));
    Where(rows, LocationIn(countries))
  }

  /** Comparing a single region selects exactly that region's rows. */
  lemma {:induction false} ComparisonOfOne(rows: seq<Row>, country: string)
    ensures ComparisonRows(rows, [country]) == CountryRows(rows, country)
  {
    if |rows| > 0 {
      ComparisonOfOne(rows[1..], country);
    }
  }
}
