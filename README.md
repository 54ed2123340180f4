# Forage maize prediction form: feature derivation

A model of what the "Predict" button of the forage maize form for north-west
Spain derives before it calls its three LightGBM yield models (dry matter,
UFL energy, crude protein). The form offers the sites found in a historical
site-year table, six cultivars, three sowing and three harvest dates, and a
"Good / Average / Bad Year" weather switch. On Predict it:

1. keeps the historical rows of the chosen site;
2. takes the minimum, mean and maximum of Tmin, Tmax, precipitation and
   radiation over those rows, and the means of WHC, soil carbon, pH and
   anthesis day;
3. picks one aggregate per weather variable by the scenario table
   (Good Year: radiation max, precipitation min, Tmin max, Tmax min;
   Bad Year: radiation min, precipitation min, Tmin min, Tmax max;
   any other label: the four means);
4. turns the sowing and harvest labels into days of year, subtracts them into
   the growing season, and builds a one-row frame of 13 columns in a fixed
   order, with Site and Cultivar cast to categorical.

Files:

- `stats.dfy` (module `Stats`): `Min`, `Max`, `Mean` of a non-empty column of
  readings, with the mean proved to lie between the minimum and maximum.
- `dataset.dfy` (module `Dataset`): the historical `Observation` rows, the
  site filter `SiteRows` and its locality lemmas, and the site list
  `SiteOptions` (distinct site names in code-point order, as Python's
  `sorted` orders strings).
- `prediction.dfy` (module `Prediction`): per-site aggregation, the scenario
  table, the day-of-year maps and growing season, the `PredictionRow`, its
  column frame `Columns` with the inverse `ParseColumns`, and the top-level
  `PredictionInput` / `DataPredict`.

Readings are mathematical reals: no missing values and no floating-point
rounding. The model follows the code as written: the row has 13 columns and no elevation column; there is no
"site not found" error because the site can only be picked from the offered
list `SiteOptions`, the table's own sites (so `PredictionInput` and
`DataPredict` require `site in SiteOptions(rows)`, and `ChosenSiteHasRows`
turns that into a non-empty site subset); every weather label other than "Good Year" and
"Bad Year" selects the means, not only "Average Year"; the cultivar is passed
through without validation against a closed category list; and the growing
season is positive for every selectable pair, so the negative case never
arises from the form.

## Model

| member | source | states |
|---|---|---|
| Stats.Min | app.py:50-64 | the minimum of a non-empty column is one of its readings and no reading is below it |
| Stats.Max | app.py:50-64 | the maximum of a non-empty column is one of its readings and no reading is above it |
| Stats.Mean | app.py:50-69 | the mean of a non-empty column lies between the column's minimum and maximum |
| Stats.SumAtLeast | app.py:50-69 | a column whose readings are all at least c totals at least n times c (used for the mean's lower bound) |
| Stats.SumAtMost | app.py:50-69 | a column whose readings are all at most c totals at most n times c (used for the mean's upper bound) |
| Dataset.SiteRows | app.py:48 | the filtered rows are exactly the table rows whose site is the chosen one, and never more rows than the table |
| Dataset.SiteRowsCounts | app.py:48 | the filter keeps each row of the chosen site as many times as the table holds it, and no row of another site |
| Dataset.SiteRowsNonEmpty | app.py:38-48 | a site's filtered rows are non-empty exactly when the site occurs in the table |
| Dataset.SiteRowsAppend | app.py:48 | filtering a concatenation of tables is the concatenation of the filtered tables |
| Dataset.InsertOtherSite | app.py:48 | inserting a row of another site anywhere leaves the filtered rows unchanged |
| Dataset.ReplaceOtherSite | app.py:48 | replacing a row of another site by a row of another site leaves the filtered rows unchanged |
| Dataset.Insert | app.py:38 | adding a name to a strictly sorted site list keeps it strictly sorted and adds only that name |
| Dataset.SiteOptions | app.py:38 | the offered site list is strictly ascending in code-point order (no duplicates) and holds exactly the table's sites |
| Dataset.SiteOptionsDistinct | app.py:38 | the offered site list names no site twice, as `unique()` promises |
| Dataset.ChosenSiteHasRows | app.py:38-48 | any site picked from the offered list has at least one historical row |
| Prediction.Column | app.py:50-69 | a `df_site["<col>"]` column has one reading per row, in row order, so its values are exactly the readings of that variable over the given rows |
| Prediction.SiteColumn | app.py:48-69 | a site's column has one reading per filtered site row, in the same order (so each reading occurs as often as SiteRowsCounts says its row does), holds exactly the site's readings, and is non-empty exactly when the site occurs in the table |
| Prediction.ColumnSpread | app.py:50-64 | min, mean and max of a non-empty column are ordered, the min and max bound every row's reading and are readings of some row |
| Prediction.Summarize | app.py:50-69 | the four weather spreads of the site summary are ordered, bound every site row's reading and are attained; the soil and anthesis means are stated by SoilAndAnthesisIgnoreWeather |
| Prediction.SelectWeather | app.py:71-85 | each selected weather value lies within its variable's spread, and Good and Bad both take the minimum precipitation; the exact choices are stated by GoodYearSelection, BadYearSelection and OtherLabelsSelectMeans |
| Prediction.SiteExtremes | app.py:50-64 | a site column's minimum and maximum are readings of some site row and bound every site row's reading |
| Prediction.SiteSpread | app.py:50-64 | the site minimum is at most the site maximum, strictly below it when two site rows differ in that variable |
| Prediction.SpreadOf | app.py:50-64 | each aggregated spread satisfies min <= mean <= max |
| Prediction.ScenarioOf | app.py:71-81 | the Good scenario is chosen exactly for "Good Year", the Bad scenario exactly for "Bad Year", the means otherwise |
| Prediction.OfferedLabels | app.py:40-45 | the offered sowing and harvest labels are exactly the map keys, and the three offered weather labels select Good, Average and Bad |
| Prediction.GrowingSeason | app.py:87-89 | harvest day minus sowing day lies in [83, 154] for every selectable pair, so it is always positive |
| Prediction.GrowingSeasonExtremes | app.py:44-45 | both bounds are reached (Early June to Early-Sept is 83, Mid-May to Late-Sept is 154) and Mid-May to Early-Sept is 117 |
| Prediction.PredictionInput | app.py:38-105 | for a site from the offered list, site and cultivar pass through, sowing and harvest are the mapped days, growing season is their difference and positive, and each selected weather value lies within its site minimum and maximum |
| Prediction.GoodYearSelection | app.py:71-75 | for "Good Year", radiation and Tmin are the largest site readings and precipitation and Tmax the smallest |
| Prediction.BadYearSelection | app.py:76-80 | for "Bad Year", radiation, precipitation and Tmin are the smallest site readings and Tmax the largest |
| Prediction.OtherLabelsSelectMeans | app.py:81-85 | for any label other than "Good Year" and "Bad Year", the four weather values are the site means |
| Prediction.PrecipitationSameInGoodAndBad | app.py:73-78 | Good and Bad years receive the same precipitation (the site minimum) |
| Prediction.GoodVersusBad | app.py:71-80 | Good year radiation and Tmin are at least, and Tmax at most, the Bad year values, strictly when two site rows differ in that variable |
| Prediction.SoilAndAnthesisIgnoreWeather | app.py:66-102 | WHC, C(%), pH and anthesis are the site means and equal for any two weather labels |
| Prediction.OnlySiteRowsMatter | app.py:48 | two tables with the same rows for the chosen site give the same derived row |
| Prediction.OtherSiteRowAdded | app.py:48 | adding a row of another site anywhere in the table leaves the derived row unchanged |
| Prediction.OtherSiteRowChanged | app.py:48 | changing a row of another site leaves the derived row unchanged |
| Prediction.Columns | app.py:91-108 | the frame has exactly the 13 schema columns in order, Site and Cultivar categorical and no other column categorical |
| Prediction.ParseColumns | app.py:91-105 | a frame reads back as a row only if it has the 13 schema names in order, with the row's site and cultivar as its two categorical cells |
| Prediction.ColumnsRoundTrip | app.py:91-105 | reading the frame back gives the row it was built from |
| Prediction.ParsedColumnsRebuild | app.py:91-105 | every frame that reads back as a row is exactly that row's frame |
| Prediction.DataPredict | app.py:91-108 | the frame handed to the models has the 13 schema columns, the chosen site and cultivar (any string, so every offered cultivar) as categories, and reads back as the derived row |

## Left out

- Loading the three models with joblib and stopping the app when that fails (app.py:12-18): file I/O and deserialisation of opaque artifacts.
- Loading the map image and the Excel table (app.py:21-24): file I/O; the table is an input sequence of rows instead.
- The Streamlit layout, widgets, markdown and the `st.dataframe` display (app.py:8-37, app.py:39, app.py:110-111): user interface. The sowing, harvest and weather option lists are modelled as constants (`SowingOptions`, `HarvestOptions`, `WeatherOptions`), and the site list as `SiteOptions`; the cultivar list is not modelled (see below).
- The three `predict` calls, `round(..., 2)` and the writes to `st.session_state` (app.py:113-115): opaque LightGBM inference, floating-point rounding and UI session state.
- The pandas categorical encoding (app.py:107-108): only the fact that Site and Cultivar are tagged categorical is modelled (`Cell.Category`), not the category codes.
- Missing values and IEEE rounding: pandas skips NaN in `min`/`mean`/`max` and rounds the mean; readings here are exact reals with no missing entries.
- The spreadsheet's Cultivar column and any other columns the derivation does not read are not part of `Observation`.
- The dictionary lookups of the sowing and harvest labels raise an error for an unknown label; the model requires a known label instead, since the form only offers map keys (`OfferedLabels`).
- The cultivar option list (app.py:39) is not modelled as a constraint: the derivation passes whatever cultivar it is given through to the frame unchecked, as the code does.
