/**
 * What the Predict button of the forage maize form derives before it calls
 * the three yield models: the chosen site's aggregates, the weather values
 * picked by the chosen scenario, the sowing and harvest days of year, the
 * growing season, and the 13-column input row handed to the models.
 */
module Prediction {
  import opened Stats
  import opened Dataset

  datatype Option<T> = None | Some(value: T)

  /** The columns of the historical table that the derivation aggregates. */
  datatype Variable = Tmin | Tmax | Precipitation | Radiation | Whc | Carbon | Ph | Anthesis

  function Reading(o: Observation, v: Variable): real
  {
    match v
    case Tmin => o.tmin
    case Tmax => o.tmax
    case Precipitation => o.precipitation
    case Radiation => o.radiation
    case Whc => o.whc
    case Carbon => o.carbon
    case Ph => o.ph
    case Anthesis => o.anthesis
  }

  /** One column of a table: the reading of `v` of each row, in row order. */
  function Column(rows: seq<Observation>, v: Variable): (c: seq<real>)
    ensures |c| == |rows| && forall i :: 0 <= i < |c| ==> c[i] == Reading(rows[i], v)
    ensures forall x :: x in c <==> exists o :: o in rows && Reading(o, v) == x
  {
    var c := seq(|rows|, i requires 0 <= i < |rows| => Reading(rows[i], v));
    assert forall x :: x in c <==> exists o :: o in rows && Reading(o, v) == x by {
      forall x | x in c
        ensures exists o :: o in rows && Reading(o, v) == x
      {
        var i :| 0 <= i < |c| && c[i] == x;
        assert rows[i] in rows;
      }
      forall o | o in rows
        ensures Reading(o, v) in c
      {
        var i :| 0 <= i < |rows| && rows[i] == o;
        assert c[i] == Reading(o, v);
      }
    }
    c
  }

  /**
   * The readings of one variable over the rows of one site, one per site row
   * and in the same order (so with the multiplicities of SiteRowsCounts);
   * empty exactly when the site has no rows.
   */
  function SiteColumn(rows: seq<Observation>, site: string, v: Variable): (c: seq<real>)
    ensures |c| == |SiteRows(rows, site)|
    ensures forall i :: 0 <= i < |c| ==> c[i] == Reading(SiteRows(rows, site)[i], v)
    ensures |c| > 0 <==> site in Sites(rows)
    ensures forall x :: x in c <==> exists o :: o in rows && o.site == site && Reading(o, v) == x
  {
    SiteRowsNonEmpty(rows, site);
    Column(SiteRows(rows, site), v)
  }

  /** `x` is the largest reading of `v` at `site`: no site row exceeds it and some site row has it. */
  ghost predicate IsSiteMax(rows: seq<Observation>, site: string, v: Variable, x: real)
  {
    && (forall o :: o in SiteRows(rows, site) ==> Reading(o, v) <= x)
    && (exists o :: o in SiteRows(rows, site) && Reading(o, v) == x)
  }

  /** `x` is the smallest reading of `v` at `site`: no site row is below it and some site row has it. */
  ghost predicate IsSiteMin(rows: seq<Observation>, site: string, v: Variable, x: real)
  {
    && (forall o :: o in SiteRows(rows, site) ==> x <= Reading(o, v))
    && (exists o :: o in SiteRows(rows, site) && Reading(o, v) == x)
  }

  /** The minimum, mean and maximum of one variable. */
  datatype Spread = Spread(min: real, mean: real, max: real)

  predicate Ordered(sp: Spread)
  {
    sp.min <= sp.mean <= sp.max
  }

  predicate Within(x: real, sp: Spread)
  {
    sp.min <= x <= sp.max
  }

  function SpreadOf(c: seq<real>): (s: Spread)
    requires |c| > 0
    ensures Ordered(s)
  {
    Spread(Min(c), Mean(c), Max(c))
  }

  /**
   * `sp` is the spread of `v` over `rows`: ordered, its minimum and maximum
   * bound every reading, and both are readings of some row.
   */
  ghost predicate SpreadOver(sp: Spread, rows: seq<Observation>, v: Variable)
  {
    && Ordered(sp)
    && (forall o :: o in rows ==> Within(Reading(o, v), sp))
    && (exists o :: o in rows && Reading(o, v) == sp.min)
    && (exists o :: o in rows && Reading(o, v) == sp.max)
  }

  /** The spread of a non-empty table's column is its spread over the table's rows. */
  lemma ColumnSpread(rows: seq<Observation>, v: Variable)
    requires |rows| > 0
    ensures SpreadOver(SpreadOf(Column(rows, v)), rows, v)
  {
    var c := Column(rows, v);
    assert rows[0] in rows;
    forall o | o in rows
      ensures Min(c) <= Reading(o, v) <= Max(c)
    {
      var i :| 0 <= i < |rows| && rows[i] == o;
      assert c[i] == Reading(o, v);
    }
  }

  /** The column minimum and maximum of a site are its extreme readings. */
  lemma SiteExtremes(rows: seq<Observation>, site: string, v: Variable)
    requires site in SiteOptions(rows)
    ensures |SiteColumn(rows, site, v)| > 0
    ensures IsSiteMin(rows, site, v, Min(SiteColumn(rows, site, v)))
    ensures IsSiteMax(rows, site, v, Max(SiteColumn(rows, site, v)))
  {
    ChosenSiteHasRows(rows, site);
    ColumnSpread(SiteRows(rows, site), v);
  }

  /** Everything the handler aggregates over the rows of the chosen site. */
  datatype SiteSummary = SiteSummary(
    tmin: Spread,
    tmax: Spread,
    precipitation: Spread,
    radiation: Spread,
    whc: real,
    carbon: real,
    ph: real,
    anthesis: real
  )

  function Summarize(siteRows: seq<Observation>): (s: SiteSummary)
    requires |siteRows| > 0
    ensures SpreadOver(s.tmin, siteRows, Tmin) && SpreadOver(s.tmax, siteRows, Tmax)
    ensures SpreadOver(s.precipitation, siteRows, Precipitation) && SpreadOver(s.radiation, siteRows, Radiation)
  {
    ColumnSpread(siteRows, Tmin);
    ColumnSpread(siteRows, Tmax);
    ColumnSpread(siteRows, Precipitation);
    ColumnSpread(siteRows, Radiation);
    SiteSummary(
      SpreadOf(Column(siteRows, Tmin)),
      SpreadOf(Column(siteRows, Tmax)),
      SpreadOf(Column(siteRows, Precipitation)),
      SpreadOf(Column(siteRows, Radiation)),
      Mean(Column(siteRows, Whc)),
      Mean(Column(siteRows, Carbon)),
      Mean(Column(siteRows, Ph)),
      Mean(Column(siteRows, Anthesis)))
  }

  /** The weather scenario; AverageYear stands for every label other than the two named ones. */
  datatype Scenario = GoodYear | BadYear | AverageYear

  const WeatherOptions: seq<string> := ["Good Year", "Average Year", "Bad Year"]

  function ScenarioOf(weatherLabel: string): (s: Scenario)
    ensures s == GoodYear <==> weatherLabel == "Good Year"
    ensures s == BadYear <==> weatherLabel == "Bad Year"
  {
    if weatherLabel == "Good Year" then GoodYear
    else if weatherLabel == "Bad Year" then BadYear
    else AverageYear
  }

  /** The four weather inputs of the models. */
  datatype Weather = Weather(radiation: real, precipitation: real, tmin: real, tmax: real)

  /**
   * The fixed selection table of the scenarios. Each chosen value stays within
   * its variable's spread, and Good and Bad years both take the lowest precipitation.
   */
  function SelectWeather(scenario: Scenario, s: SiteSummary): (w: Weather)
    ensures Ordered(s.radiation) ==> Within(w.radiation, s.radiation)
    ensures Ordered(s.precipitation) ==> Within(w.precipitation, s.precipitation)
    ensures Ordered(s.tmin) ==> Within(w.tmin, s.tmin)
    ensures Ordered(s.tmax) ==> Within(w.tmax, s.tmax)
    ensures scenario != AverageYear ==> w.precipitation == s.precipitation.min
  {
    match scenario
    case GoodYear => Weather(s.radiation.max, s.precipitation.min, s.tmin.max, s.tmax.min)
    case BadYear => Weather(s.radiation.min, s.precipitation.min, s.tmin.min, s.tmax.max)
    case AverageYear => Weather(s.radiation.mean, s.precipitation.mean, s.tmin.mean, s.tmax.mean)
  }

  /** Day of year of each sowing and harvest label of the form. */
  const SowingOptions: seq<string> := ["Mid-May", "End-May", "Early June"]
  const HarvestOptions: seq<string> := ["Early-Sept", "Mid-Sept", "Late-Sept"]
  const SowingDoy: map<string, int> := map["Mid-May" := 133, "End-May" := 151, "Early June" := 167]
  const HarvestDoy: map<string, int> := map["Early-Sept" := 250, "Mid-Sept" := 264, "Late-Sept" := 287]

  /**
   * The sowing and harvest labels the form offers are exactly the keys of the
   * day-of-year maps, and its three weather labels select the three scenarios.
   */
  lemma OfferedLabels()
    ensures forall l :: l in SowingOptions <==> l in SowingDoy
    ensures forall l :: l in HarvestOptions <==> l in HarvestDoy
    ensures ScenarioOf(WeatherOptions[0]) == GoodYear
    ensures ScenarioOf(WeatherOptions[1]) == AverageYear
    ensures ScenarioOf(WeatherOptions[2]) == BadYear
  {
  }

  /** Days from sowing to harvest; for every selectable pair it lies in [83, 154]. */
  function GrowingSeason(sowingLabel: string, harvestLabel: string): (days: int)
    requires sowingLabel in SowingDoy && harvestLabel in HarvestDoy
    ensures 83 <= days <= 154
  {
    HarvestDoy[harvestLabel] - SowingDoy[sowingLabel]
  }

  /** The bounds of the growing season are reached, and Mid-May to Early-Sept is 117 days. */
  lemma GrowingSeasonExtremes()
    ensures GrowingSeason("Early June", "Early-Sept") == 83
    ensures GrowingSeason("Mid-May", "Late-Sept") == 154
    ensures GrowingSeason("Mid-May", "Early-Sept") == 117
  {
  }

  /** The row handed to the models, field by field in column order. */
  datatype PredictionRow = PredictionRow(
    site: string,
    cultivar: string,
    radiation: real,
    precipitation: real,
    tmax: real,
    tmin: real,
    whc: real,
    carbon: real,
    ph: real,
    sowing: int,
    anthesis: real,
    harvest: int,
    growingSeason: int
  )

  /**
   * The derivation behind the Predict button. The site is one of the table's
   * sites because the form only offers those, and the labels are keys of the
   * day-of-year maps because the form only offers those.
   */
  function PredictionInput(
    rows: seq<Observation>, site: string, cultivar: string,
    sowingLabel: string, harvestLabel: string, weatherLabel: string
  ): (row: PredictionRow)
    requires site in SiteOptions(rows)
    requires sowingLabel in SowingDoy && harvestLabel in HarvestDoy
    ensures row.site == site && row.cultivar == cultivar
    ensures row.sowing == SowingDoy[sowingLabel] && row.harvest == HarvestDoy[harvestLabel]
    ensures row.growingSeason == row.harvest - row.sowing && row.growingSeason > 0
    ensures |SiteColumn(rows, site, Radiation)| > 0
      && Min(SiteColumn(rows, site, Radiation)) <= row.radiation <= Max(SiteColumn(rows, site, Radiation))
    ensures |SiteColumn(rows, site, Precipitation)| > 0
      && Min(SiteColumn(rows, site, Precipitation)) <= row.precipitation <= Max(SiteColumn(rows, site, Precipitation))
    ensures |SiteColumn(rows, site, Tmin)| > 0
      && Min(SiteColumn(rows, site, Tmin)) <= row.tmin <= Max(SiteColumn(rows, site, Tmin))
    ensures |SiteColumn(rows, site, Tmax)| > 0
      && Min(SiteColumn(rows, site, Tmax)) <= row.tmax <= Max(SiteColumn(rows, site, Tmax))
  {
    ChosenSiteHasRows(rows, site);
    var summary := Summarize(SiteRows(rows, site));
    var w := SelectWeather(ScenarioOf(weatherLabel), summary);
    PredictionRow(
      site, cultivar, w.radiation, w.precipitation, w.tmax, w.tmin,
      summary.whc, summary.carbon, summary.ph,
      SowingDoy[sowingLabel], summary.anthesis, HarvestDoy[harvestLabel],
      GrowingSeason(sowingLabel, harvestLabel))
  }

  /** Good Year: radiation and Tmin at the site's maxima, precipitation and Tmax at its minima. */
  lemma GoodYearSelection(rows: seq<Observation>, site: string, cultivar: string, sowingLabel: string, harvestLabel: string)
    requires site in SiteOptions(rows)
    requires sowingLabel in SowingDoy && harvestLabel in HarvestDoy
    ensures var row := PredictionInput(rows, site, cultivar, sowingLabel, harvestLabel, "Good Year");
      && IsSiteMax(rows, site, Radiation, row.radiation)
      && IsSiteMin(rows, site, Precipitation, row.precipitation)
      && IsSiteMax(rows, site, Tmin, row.tmin)
      && IsSiteMin(rows, site, Tmax, row.tmax)
  {
    SiteExtremes(rows, site, Radiation);
    SiteExtremes(rows, site, Precipitation);
    SiteExtremes(rows, site, Tmin);
    SiteExtremes(rows, site, Tmax);
  }

  /** Bad Year: radiation, precipitation and Tmin at the site's minima, Tmax at its maximum. */
  lemma BadYearSelection(rows: seq<Observation>, site: string, cultivar: string, sowingLabel: string, harvestLabel: string)
    requires site in SiteOptions(rows)
    requires sowingLabel in SowingDoy && harvestLabel in HarvestDoy
    ensures var row := PredictionInput(rows, site, cultivar, sowingLabel, harvestLabel, "Bad Year");
      && IsSiteMin(rows, site, Radiation, row.radiation)
      && IsSiteMin(rows, site, Precipitation, row.precipitation)
      && IsSiteMin(rows, site, Tmin, row.tmin)
      && IsSiteMax(rows, site, Tmax, row.tmax)
  {
    SiteExtremes(rows, site, Radiation);
    SiteExtremes(rows, site, Precipitation);
    SiteExtremes(rows, site, Tmin);
    SiteExtremes(rows, site, Tmax);
  }

  /** Every label other than "Good Year" and "Bad Year" selects the site means of all four variables. */
  lemma OtherLabelsSelectMeans(
    rows: seq<Observation>, site: string, cultivar: string,
    sowingLabel: string, harvestLabel: string, weatherLabel: string)
    requires site in SiteOptions(rows)
    requires sowingLabel in SowingDoy && harvestLabel in HarvestDoy
    requires weatherLabel != "Good Year" && weatherLabel != "Bad Year"
    ensures |SiteColumn(rows, site, Radiation)| > 0 && |SiteColumn(rows, site, Precipitation)| > 0
    ensures |SiteColumn(rows, site, Tmin)| > 0 && |SiteColumn(rows, site, Tmax)| > 0
    ensures var row := PredictionInput(rows, site, cultivar, sowingLabel, harvestLabel, weatherLabel);
      && row.radiation == Mean(SiteColumn(rows, site, Radiation))
      && row.precipitation == Mean(SiteColumn(rows, site, Precipitation))
      && row.tmin == Mean(SiteColumn(rows, site, Tmin))
      && row.tmax == Mean(SiteColumn(rows, site, Tmax))
  {
    SiteRowsNonEmpty(rows, site);
  }

  /** Precipitation is the site minimum in both the Good and the Bad year. */
  lemma PrecipitationSameInGoodAndBad(
    rows: seq<Observation>, site: string, cultivar: string, sowingLabel: string, harvestLabel: string)
    requires site in SiteOptions(rows)
    requires sowingLabel in SowingDoy && harvestLabel in HarvestDoy
    ensures PredictionInput(rows, site, cultivar, sowingLabel, harvestLabel, "Good Year").precipitation
         == PredictionInput(rows, site, cultivar, sowingLabel, harvestLabel, "Bad Year").precipitation
  {
  }

  /**
   * A Good year has at least the radiation and Tmin and at most the Tmax of a
   * Bad year, strictly so whenever two of the site's rows differ in that variable.
   */
  lemma GoodVersusBad(
    rows: seq<Observation>, site: string, cultivar: string, sowingLabel: string, harvestLabel: string,
    o1: Observation, o2: Observation)
    requires site in SiteOptions(rows)
    requires sowingLabel in SowingDoy && harvestLabel in HarvestDoy
    requires o1 in SiteRows(rows, site) && o2 in SiteRows(rows, site)
    ensures var good := PredictionInput(rows, site, cultivar, sowingLabel, harvestLabel, "Good Year");
      var bad := PredictionInput(rows, site, cultivar, sowingLabel, harvestLabel, "Bad Year");
      && (if Reading(o1, Radiation) != Reading(o2, Radiation) then good.radiation > bad.radiation else good.radiation >= bad.radiation)
      && (if Reading(o1, Tmin) != Reading(o2, Tmin) then good.tmin > bad.tmin else good.tmin >= bad.tmin)
      && (if Reading(o1, Tmax) != Reading(o2, Tmax) then good.tmax < bad.tmax else good.tmax <= bad.tmax)
  {
    var good := PredictionInput(rows, site, cultivar, sowingLabel, harvestLabel, "Good Year");
    var bad := PredictionInput(rows, site, cultivar, sowingLabel, harvestLabel, "Bad Year");
    SiteRowsNonEmpty(rows, site);
    assert good.radiation == Max(SiteColumn(rows, site, Radiation)) && bad.radiation == Min(SiteColumn(rows, site, Radiation));
    assert good.tmin == Max(SiteColumn(rows, site, Tmin)) && bad.tmin == Min(SiteColumn(rows, site, Tmin));
    assert good.tmax == Min(SiteColumn(rows, site, Tmax)) && bad.tmax == Max(SiteColumn(rows, site, Tmax));
    SiteSpread(rows, site, Radiation, o1, o2);
    SiteSpread(rows, site, Tmin, o1, o2);
    SiteSpread(rows, site, Tmax, o1, o2);
  }

  /** Two site rows that differ in `v` force the site minimum of `v` strictly below its maximum. */
  lemma SiteSpread(rows: seq<Observation>, site: string, v: Variable, o1: Observation, o2: Observation)
    requires site in SiteOptions(rows)
    requires o1 in SiteRows(rows, site) && o2 in SiteRows(rows, site)
    ensures |SiteColumn(rows, site, v)| > 0
    ensures Min(SiteColumn(rows, site, v)) <= Max(SiteColumn(rows, site, v))
    ensures Reading(o1, v) != Reading(o2, v) ==> Min(SiteColumn(rows, site, v)) < Max(SiteColumn(rows, site, v))
  {
    SiteExtremes(rows, site, v);
  }

  /** WHC, C(%), pH and anthesis are the site means whatever the weather label. */
  lemma SoilAndAnthesisIgnoreWeather(
    rows: seq<Observation>, site: string, cultivar: string,
    sowingLabel: string, harvestLabel: string, label1: string, label2: string)
    requires site in SiteOptions(rows)
    requires sowingLabel in SowingDoy && harvestLabel in HarvestDoy
    ensures |SiteColumn(rows, site, Whc)| > 0 && |SiteColumn(rows, site, Carbon)| > 0
    ensures |SiteColumn(rows, site, Ph)| > 0 && |SiteColumn(rows, site, Anthesis)| > 0
    ensures var r1 := PredictionInput(rows, site, cultivar, sowingLabel, harvestLabel, label1);
      var r2 := PredictionInput(rows, site, cultivar, sowingLabel, harvestLabel, label2);
      && r1.whc == r2.whc == Mean(SiteColumn(rows, site, Whc))
      && r1.carbon == r2.carbon == Mean(SiteColumn(rows, site, Carbon))
      && r1.ph == r2.ph == Mean(SiteColumn(rows, site, Ph))
      && r1.anthesis == r2.anthesis == Mean(SiteColumn(rows, site, Anthesis))
  {
    SiteRowsNonEmpty(rows, site);
  }

  /** Only the chosen site's rows matter: tables that agree on them give the same row. */
  lemma OnlySiteRowsMatter(
    rows1: seq<Observation>, rows2: seq<Observation>, site: string, cultivar: string,
    sowingLabel: string, harvestLabel: string, weatherLabel: string)
    requires site in SiteOptions(rows1)
    requires SiteRows(rows1, site) == SiteRows(rows2, site)
    requires sowingLabel in SowingDoy && harvestLabel in HarvestDoy
    ensures site in SiteOptions(rows2)
    ensures PredictionInput(rows1, site, cultivar, sowingLabel, harvestLabel, weatherLabel)
         == PredictionInput(rows2, site, cultivar, sowingLabel, harvestLabel, weatherLabel)
  {
    SiteRowsNonEmpty(rows1, site);
    SiteRowsNonEmpty(rows2, site);
  }

  /** Adding a row of another site anywhere in the table leaves the derived row unchanged. */
  lemma OtherSiteRowAdded(
    rows: seq<Observation>, i: nat, o: Observation, site: string, cultivar: string,
    sowingLabel: string, harvestLabel: string, weatherLabel: string)
    requires i <= |rows| && o.site != site
    requires site in SiteOptions(rows)
    requires sowingLabel in SowingDoy && harvestLabel in HarvestDoy
    ensures site in SiteOptions(rows[..i] + [o] + rows[i..])
    ensures PredictionInput(rows[..i] + [o] + rows[i..], site, cultivar, sowingLabel, harvestLabel, weatherLabel)
         == PredictionInput(rows, site, cultivar, sowingLabel, harvestLabel, weatherLabel)
  {
    InsertOtherSite(rows, i, o, site);
    OnlySiteRowsMatter(rows, rows[..i] + [o] + rows[i..], site, cultivar, sowingLabel, harvestLabel, weatherLabel);
  }

  /** Changing a row of another site into a row of another site leaves the derived row unchanged. */
  lemma OtherSiteRowChanged(
    rows: seq<Observation>, i: nat, o: Observation, site: string, cultivar: string,
    sowingLabel: string, harvestLabel: string, weatherLabel: string)
    requires i < |rows| && rows[i].site != site && o.site != site
    requires site in SiteOptions(rows)
    requires sowingLabel in SowingDoy && harvestLabel in HarvestDoy
    ensures site in SiteOptions(rows[i := o])
    ensures PredictionInput(rows[i := o], site, cultivar, sowingLabel, harvestLabel, weatherLabel)
         == PredictionInput(rows, site, cultivar, sowingLabel, harvestLabel, weatherLabel)
  {
    ReplaceOtherSite(rows, i, o, site);
    OnlySiteRowsMatter(rows, rows[i := o], site, cultivar, sowingLabel, harvestLabel, weatherLabel);
  }

  /** A cell of the models' input frame; Category marks the two columns cast to categorical. */
  datatype Cell = Category(name: string) | Number(value: real) | Integer(count: int)

  /** The column names of the models' input frame, in order. */
  const Schema: seq<string> := [
    "Site", "Cultivar", "Radiacion(Mj/m2day)", "Precipitation(mm)", "Tmax(ºC)", "Tmin(ºC)",
    "WHC(mm)", "C(%)", "ph", "SowingDate(doy)", "AnthesisDate(doy)", "HarvestDate(doy)",
    "GrowingSeason(day)"]

  /** The one-row frame: the 13 schema columns in order, Site and Cultivar categorical. */
  function Columns(row: PredictionRow): (cols: seq<(string, Cell)>)
    ensures |cols| == |Schema| == 13
    ensures forall i :: 0 <= i < |cols| ==> cols[i].0 == Schema[i]
    ensures cols[0].1 == Category(row.site) && cols[1].1 == Category(row.cultivar)
    ensures forall i :: 2 <= i < |cols| ==> !cols[i].1.Category?
  {
    [ ("Site", Category(row.site)),
      ("Cultivar", Category(row.cultivar)),
      ("Radiacion(Mj/m2day)", Number(row.radiation)),
      ("Precipitation(mm)", Number(row.precipitation)),
      ("Tmax(ºC)", Number(row.tmax)),
      ("Tmin(ºC)", Number(row.tmin)),
      ("WHC(mm)", Number(row.whc)),
      ("C(%)", Number(row.carbon)),
      ("ph", Number(row.ph)),
      ("SowingDate(doy)", Integer(row.sowing)),
      ("AnthesisDate(doy)", Number(row.anthesis)),
      ("HarvestDate(doy)", Integer(row.harvest)),
      ("GrowingSeason(day)", Integer(row.growingSeason)) ]
  }

  /** Reads a frame back into a row; None unless it has the schema's names and cell kinds. */
  function ParseColumns(cols: seq<(string, Cell)>): (r: Option<PredictionRow>)
    ensures r.Some? ==> |cols| == |Schema| && forall i :: 0 <= i < |cols| ==> cols[i].0 == Schema[i]
    ensures r.Some? ==> cols[0].1 == Category(r.value.site) && cols[1].1 == Category(r.value.cultivar)
  {
    if |cols| != |Schema| || exists i :: 0 <= i < |cols| && cols[i].0 != Schema[i] then None
    else
      match (cols[0].1, cols[1].1, cols[2].1, cols[3].1, cols[4].1, cols[5].1, cols[6].1,
             cols[7].1, cols[8].1, cols[9].1, cols[10].1, cols[11].1, cols[12].1)
      case (Category(site), Category(cultivar), Number(radiation), Number(precipitation),
            Number(tmax), Number(tmin), Number(whc), Number(carbon), Number(ph),
            Integer(sowing), Number(anthesis), Integer(harvest), Integer(growingSeason)) =>
        Some(PredictionRow(site, cultivar, radiation, precipitation, tmax, tmin, whc, carbon, ph,
                           sowing, anthesis, harvest, growingSeason))
      case _ => None
  }

  /** Reading a frame back gives the row it was built from. */
  lemma ColumnsRoundTrip(row: PredictionRow)
    ensures ParseColumns(Columns(row)) == Some(row)
  {
  }

  /** Every frame that reads back as a row is exactly that row's frame. */
  lemma ParsedColumnsRebuild(cols: seq<(string, Cell)>)
    requires ParseColumns(cols).Some?
    ensures Columns(ParseColumns(cols).value) == cols
  {
  }

  /** The frame the Predict button hands to the three models. */
  function DataPredict(
    rows: seq<Observation>, site: string, cultivar: string,
    sowingLabel: string, harvestLabel: string, weatherLabel: string
  ): (cols: seq<(string, Cell)>)
    requires site in SiteOptions(rows)
    requires sowingLabel in SowingDoy && harvestLabel in HarvestDoy
    ensures |cols| == 13 && forall i :: 0 <= i < 13 ==> cols[i].0 == Schema[i]
    ensures cols[0].1 == Category(site) && cols[1].1 == Category(cultivar)
    ensures ParseColumns(cols) == Some(PredictionInput(rows, site, cultivar, sowingLabel, harvestLabel, weatherLabel))
  {
    var row := PredictionInput(rows, site, cultivar, sowingLabel, harvestLabel, weatherLabel);
    ColumnsRoundTrip(row);
    Columns(row)
  }
}
