/**
 One run of the dashboard script over the parsed feed: everything the page
 shows, computed from the dataset and the two selections.
 */
module Dashboard {
  import opened Wrappers
  import opened Observations
  import opened Totals
  import opened Regions
  import opened Cumulative

  /** `list.index` raises `ValueError` when the value is absent. */
  datatype Error = ValueError(missing: string)

  /** The values the page displays. */
  datatype View = View(
    regions: seq<string>,
    defaultIndex: nat,
    global: Totals,
    countryTotals: Totals,
    countryRows: seq<Row>,
    comparisonRows: seq<Row>,
    cumulative: seq<CumulativeRow>)

  /** The default region is listed exactly when the feed has a positive-case row for it. */
  lemma DefaultRegionPresent(raw: seq<Row>)
    ensures DefaultIndex(FilterPositive(raw)).Some? <==>
      exists i :: 0 <= i < |raw| && raw[i].location == DefaultRegion && HasPositiveCases(raw[i])
  {
    var df := FilterPositive(raw);
    if i :| 0 <= i < |raw| && raw[i].location == DefaultRegion && HasPositiveCases(raw[i]) {
      assert raw[i] in df;
      var j :| 0 <= j < |df| && df[j] == raw[i];
    }
    if j :| 0 <= j < |df| && df[j].location == DefaultRegion {
      assert df[j] in df;
      var i :| 0 <= i < |raw| && raw[i] == df[j];
    }
  }

  /**
   `raw` is the parsed feed, `country` the value of the single-region
   selector and `countries` the value of the comparison selector. The region
   list's index of "Canada" is computed on every run, and that lookup fails
   exactly when no positive-case row of that region is present. The result
   is `Err` only for this lookup; the framework's own check of the
   comparison selector's default values is not modelled.
   */
  function Render(raw: seq<Row>, country: string, countries: seq<string>): (r: Result<View, Error>)
    ensures r.Err? <==>
      !exists i :: 0 <= i < |raw| && raw[i].location == DefaultRegion && HasPositiveCases(raw[i])
    ensures r.Err? ==> r.error == ValueError(DefaultRegion)
    ensures r.Ok? ==>
      r.value.defaultIndex < |r.value.regions| &&
      r.value.regions[r.value.defaultIndex] == DefaultRegion
    ensures r.Ok? ==> forall x :: x in r.value.countryRows <==>
      x in raw && HasPositiveCases(x) && x.location == country
    ensures r.Ok? ==> forall x :: x in r.value.comparisonRows <==>
      x in raw && HasPositiveCases(x) && x.location in countries
    ensures r.Ok? ==> r.value.countryTotals == MetricTotals(r.value.countryRows)
    ensures r.Ok? ==>
      var df := FilterPositive(raw);
      r.value.regions == RegionList(df) &&
      r.value.global == MetricTotals(df) &&
      r.value.countryRows == CountryRows(df, country) &&
      r.value.comparisonRows == ComparisonRows(df, countries) &&
      r.value.cumulative == GlobalCumulative(df)
    ensures r.Ok? ==> |r.value.cumulative| > 0
    ensures r.Ok? ==> (
      var last := r.value.cumulative[|r.value.cumulative| - 1];
      Totals(last.cases, last.deaths, last.vaccinations) == r.value.global)
  {
    var df := FilterPositive(raw);
    DefaultRegionPresent(raw);
    match DefaultIndex(df)
    case None => Err(ValueError(DefaultRegion))
    case Some(index) =>
      var cumulative := GlobalCumulative(df);
      CumulativeLastIsTotal(df);
      Ok(View(
        RegionList(df),
        index,
        MetricTotals(df),
        MetricTotals(CountryRows(df, country)),
        CountryRows(df, country),
        ComparisonRows(df, countries),
        cumulative))
  }
}
