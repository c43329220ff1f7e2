# Crime dashboard: filter and aggregation core

The crime dashboard is a Flask and pandas backend (`app.py`) serving JSON aggregates of a
table of crime reports. A browser script (`static/script.js`) reads three filter
controls (area, year, month), sends them as a query string to six endpoints, and draws
the answers: a summary panel, four charts and a map of individual crimes.

This project models the logic under that glue in Dafny and proves what it guarantees.

- **Server** (`Backend`, using `Pandas` and `Text`):
  - `filter_data` is modelled as a sequence of filter steps. An empty or `'All'`
    argument constrains nothing, and a year or month that `int()` rejects is ignored.
  - The aggregation of each real-data endpoint is modelled:
    - `/api/filters`: the option lists.
    - `/api/by_area` and `/api/by_type`: the top 20 and top 10 counts.
    - `/api/by_time`: the 24-slot hour histogram, filled in place in an array.
    - `/api/victims`: the `pd.cut` age bins and the gender counts.
    - `/api/map`: the `cols` and `crimes` append loops, the NaN and zero-coordinate
      filter, the `limit` cap, and `total`.
- **Client, values** (`Client`):
  - `getFilters` and `buildQueryString`. The latter is a method that appends step by
    step, proved equal to the serialiser `Serialize`.
  - The area chart's projection of the filters, and the six queries one refresh sends.
  - The summary's `?? 0` defaults and its data-source precedence.
  - The select options, built by loops.
  - The projection of map records to markers.
- **Client, state** (`Panels`):
  - The global `charts` object as a class. Each render destroys the panel's old chart
    before storing the new one. An invariant states that every chart instance ever
    created is either held by exactly one panel or destroyed.
  - The map's marker layer, count line and viewport as a class whose `Update` clears
    the layer and then refills it.
  - The summary's text fields.
- **Both together** (`EndToEnd`): what the server computes for the queries the client
  actually sends.

Request arguments are the client's query, a sequence of key/value pairs. On the server,
`request.args.get(k, d)` is the first value for `k`, or `d` when there is none.

A table is modelled as:

- a set of present columns, since every endpoint branches on `col in df.columns`;
- a sequence of rows whose cells are optional, where `None` is NaN.

Randomness is a parameter: `DataFrame.sample(limit)` is a mask with `limit` entries set.

## Model

| member | source | states |
|---|---|---|
| Text.Lookup | app.py:128-130 | `request.args.get(key)`: a value is returned only if the pair is in the query, and None exactly when no pair has that key |
| Text.LookupFirst | app.py:128-130 | the value `request.args.get(key)` returns is that of the first pair with the key |
| Text.ParseIntToString | app.py:84 | a year rendered with `str` parses back with `int` to the same integer |
| Text.IntToStringInjective | app.py:84 | distinct years render as distinct strings |
| Text.SortedUnique | app.py:83-84 | `sorted(unique(...))`: strictly ascending in Python's string order, with exactly the values of the input |
| Text.BelowTransitive | app.py:83-84 | Python's string order is transitive (with BelowIrreflexive and BelowTotal, a strict total order) |
| Pandas.Ranking | app.py:117 | the distinct values, each once, by non-increasing count, no more of them than inputs |
| Pandas.TopCounts | app.py:117 | `value_counts().head(n)`: at most n labels, distinct, each with its true count (positive), counts non-increasing |
| Pandas.TopCountsComplete | app.py:117 | a value missing from the top n is no more frequent than the n-th label, and is missing only when n labels were kept |
| Pandas.TopCountsAll | app.py:181-183 | `value_counts()` without `head` lists every value |
| Pandas.ValueCounts | app.py:136 | `value_counts()` as a map: defined exactly on the values present, each mapped to its count |
| Pandas.Pick | app.py:222-223 | the sampled rows: an order-preserving selection of exactly as many rows as the mask marks |
| Pandas.Filter | app.py:50 | boolean indexing: keeps exactly the rows meeting the condition, each as many times as it occurs in the input, in order |
| Backend.FilterFrame | app.py:47-64 | filter_data on a loaded table keeps every column and never adds rows |
| Backend.FilterData | app.py:43-64 | None exactly when no table is loaded; otherwise the same columns and an order-preserving subsequence of the rows |
| Backend.FilterIsSelection | app.py:47-64 | the three successive filter steps equal one pass keeping the rows that meet every applicable constraint |
| Backend.FilterMembership | app.py:47-64 | a row is in the result iff it is in the table and meets each non-trivial constraint on a present column |
| Backend.FilterKeepsOrder | app.py:47-64 | the result is an order-preserving subsequence of the table |
| Backend.FilterUnconstrained | app.py:48-57 | with every argument None, empty or 'All', the table comes back unchanged |
| Backend.FilterIgnoresNonIntegers | app.py:53-62 | a year or month `int()` rejects is ignored, exactly as if it were absent |
| Backend.MonthChoices | app.py:85 | 13 choices: 'All', then `str(i)` for i = 1 to 12, each parsing back to i |
| Backend.ApiFilters | app.py:83-85 | 'All' then the table's distinct areas ascending; 'All' then distinct year strings ascending; the month choices |
| Backend.ApiFiltersYears | app.py:84 | every offered year string parses to a year of the table, and every year of the table is offered |
| Backend.ApiByArea | app.py:111-118 | at most 20 labels, as many counts as labels, each the number of filtered rows with that area, distinct labels, non-increasing counts |
| Backend.ApiByAreaComplete | app.py:117 | an area left off the chart is no more frequent than the 20th shown |
| Backend.ApiByAreaIgnoresArea | app.py:111-113 | an `area` argument does not change /api/by_area |
| Backend.ApiByType | app.py:149-157 | at most 10 crime types with their true counts, distinct, non-increasing |
| Backend.ApiByTypeComplete | app.py:156 | a crime type left off the chart is no more frequent than the 10th shown |
| Backend.ApiByTime | app.py:128-139 | exactly 24 labels "h:00" and 24 counts; slot h is the number of filtered rows at hour h, zero when none or when there is no Hour column |
| Backend.HourHistogram | app.py:136-138 | the 24-slot series updated in place: slot h holds the number of rows at hour h, other hours dropped |
| Backend.AgeBin | app.py:175-178 | `pd.cut` with right-closed bins and the lowest edge included: a bin exactly for ages 0 to 200, the bin's upper edge at or above the age and its lower edge below it (0 goes to the first bin) |
| Backend.ApiVictims | app.py:167-186 | the five age labels in order, each with the number of filtered victims in its bin; every victim sex with its true count, most frequent first; empty lists for a missing column |
| Backend.ApiVictimsGendersComplete | app.py:181-183 | every victim sex among the filtered rows appears in the gender distribution |
| Backend.AgeBinsPartition | app.py:175-179 | the five age counts add up to the number of ages in [0, 200]: each is counted once, others never |
| Backend.AgeLabelsSpellRanges | app.py:177 | the labels name the ranges 0-17, 18-29, 30-44, 45-59, 60 and up |
| Backend.AgeBinMislabelsEdges | app.py:176-178 | ages 18, 30, 45 and 60 each fall in the bin whose label excludes them |
| Backend.IntendedAgeBin | app.py:176-178 | left-closed bins: a bin exactly for ages 0 to 199, each between its lower edge and below its upper edge |
| Backend.IntendedAgeBinMatchesLabels | app.py:176-178 | under left-closed bins, every binned age lies in the range its label names |
| Backend.PresentColumns | app.py:211-214 | the columns of LAT, LON, Crm Cd Desc, AREA NAME the table has, in that order |
| Backend.SelectColumns | app.py:211-214 | the loop appending each present map column builds exactly those columns in that order |
| Backend.MapCandidates | app.py:219-220 | exactly the filtered rows with no NaN in the selected columns and, when both coordinates are selected, neither coordinate zero; each as often as in the table, in table order |
| Backend.Records | app.py:225-232 | the loop over `map_data.iterrows()` builds one record per row, in order |
| Backend.PointsFromRows | app.py:225-232 | every record built is the record of one of the source rows |
| Backend.PointsOffOrigin | app.py:225-232 | with both coordinate columns, every record has both coordinates, neither zero |
| Backend.ApiMap | app.py:191-234 | error exactly when `limit` is not an integer, or is negative with columns to plot; `total` is the number of filtered rows; with map columns, the records of all candidate rows in order when they fit under `limit`, otherwise of the drawn ones (min(limit, candidates) records); each record that of a candidate row; none at zero coordinates; no records without map columns |
| Client.GetFilters | static/script.js:87-93 | each field is its control's value, or '' when the control is absent |
| Client.BuildQueryString | static/script.js:96-102 | the pairs appended are the serialisation of the filters |
| Client.SerializeShape | static/script.js:96-102 | no empty value is ever sent; keys are filter keys, each at most once, in the order area, year, month |
| Client.SerializeLookup | static/script.js:96-102 | each field is sent exactly when it is non-empty, with its value |
| Client.SerializeRoundTrip | static/script.js:96-102 | reading the fields back out of the query gives the filters |
| Client.MissingControlUnconstrained | static/script.js:87-93 | a control absent from the document puts no parameter in the query |
| Client.AreaChartQueryHasNoArea | static/script.js:143 | the area chart's query has no `area` key whatever the filters, and the same year and month as the full query |
| Client.MapQueryAgrees | static/script.js:351 | the map query carries the filters unchanged, `limit` 500, and no empty value |
| Client.RequestQueryAgrees | static/script.js:105-116 | every request of a refresh carries the selection's year and month; all but the area chart carry its area, which carries none; the map asks for 500 records |
| Client.DataSourceLabel | static/script.js:129-133 | None exactly when neither name is truthy; otherwise a non-empty label from the payload, `data_source` first |
| Client.SummaryDefaults | static/script.js:125-126 | a missing total or average shows as 0; a present one, zero included, as given |
| Client.MonthOptions | static/script.js:67-78 | 13 options: '' labelled All, then value "i" labelled with month name i for i = 1 to 12 |
| Client.ChoiceOptions | static/script.js:37-63 | '' labelled All, then one option per value from the server, in order, value and text that value |
| Client.MarkersCount | static/script.js:364-381 | one marker per record with both coordinates: the number of markers is the number of plottable records |
| Client.MarkersOfPlottable | static/script.js:364-381 | one marker per plottable record, every record with both coordinates gets a marker, every marker comes from such a record, and there are as many markers as records iff every record is plottable |
| Panels.ReplaceAccounted | static/script.js:151-155 | destroying a panel's chart and storing a new one keeps every chart instance held by one panel or destroyed |
| Panels.ChartRegistry.Render | static/script.js:147-155 | without a canvas nothing changes; otherwise the old chart of this panel is destroyed, the new one stored, other panels untouched, the invariant kept |
| Panels.HeldPerPanel | static/script.js:2-7 | every live chart instance is held by exactly one panel |
| Panels.BoundsOf | static/script.js:384-386 | the bounds of the markers contain every marker |
| Panels.BoundsOfTight | static/script.js:384-386 | every side of the bounds is attained by a marker |
| Panels.MapView.Update | static/script.js:348-392 | the layer holds exactly the markers of the response; the count line shows records shown and total; the fit step throws iff records came and the layer is a plain group; the viewport moves only to valid bounds, and never with a plain layer group |
| Panels.LayerGroupKeepsInitialView | static/script.js:384-386 | with a plain layer group, whatever responses arrive, the viewport stays where it started |
| Panels.FeatureGroupFitsMarkers | static/script.js:384-386 | with a feature group the map is fitted iff some record is plottable, to bounds holding every marker |
| Panels.SummaryPanel.Update | static/script.js:125-133 | both figures always written with their defaults; the source line only when a label exists and its element is present |
| EndToEnd.SelectionReachesServer | app.py:94-97 | the server filters by exactly the client's selection, an empty field constraining nothing |
| EndToEnd.SelectionRows | app.py:43-64 | the rows behind each panel are the table rows meeting every non-empty field |
| EndToEnd.AreaChartAsServerComputes | static/script.js:143 | the area chart's narrower query yields the same chart as the full selection |
| EndToEnd.MapLimitAccepted | static/script.js:351 | the server reads the map request's limit as 500 |
| EndToEnd.MonthOptionFiltersMonth | static/script.js:73-78 | choosing month option i filters on month i (when the Month column exists) |
| EndToEnd.YearOptionFiltersYear | app.py:84 | choosing an offered year filters on a year of the table |
| EndToEnd.FetchMap | app.py:211-234 | for the map query the client sends: with both coordinate columns min(500, candidates) records, each at non-zero coordinates; without map columns, none |
| EndToEnd.ShowMap | static/script.js:350-387 | with both coordinate columns the map shows min(500, candidates) markers, none at a zero coordinate; without map columns it shows none and does not fail |

## Left out

- The sample-data branches taken when no CSV is loaded (`df is None`) are left out, because they fabricate random data. Endpoints take a loaded table; only `FilterData` models the `None` result.
- `/api/summary`'s server side is left out, because it is a float mean and rounding. The client's handling of the summary payload is modelled.
- CSV loading, `pd.to_datetime` and `safe_int_series` are left out: they are I/O and parsing, not the core.
- Flask routing and `jsonify` are left out. JSON transport is the identity on records (`EndToEnd.ToRecord`).
- `fetch`, the DOM, Chart.js options and Leaflet tiles, popups and styling are left out: they are foreign libraries. A chart is modelled as an identity with labels and data, and the map as markers and a viewport.
- Network errors caught by each `try` are left out.
- `Promise.all` concurrency in `updateDashboard` is left out. So is the race between overlapping refreshes: each panel update is modelled as one atomic step once its response arrives.
- `URLSearchParams` percent-encoding is left out; a query is a sequence of pairs.
- The map URL `${query}&limit=500` is modelled as appending the pair `limit=500`. The empty segment it produces when the query is empty is one the server ignores.
- Floating point is left out:
  - coordinates are `real` and compared with zero;
  - `toFixed` and `toLocaleString` formatting are not modelled (the summary stores the numbers).
- Text.ParseInt: accepts an optional sign and ASCII digits only. Python's `int()` also strips whitespace and accepts underscores and other Unicode digits.
- Pandas.TopCounts: equal counts are kept in first-occurrence order. pandas does not promise an order among ties, so only non-increasing counts are stated.
- Backend.ApiMap: the sampled rows keep table order. `DataFrame.sample` returns them in random order.
- Backend.ApiMap: which rows are sampled is the `mask` parameter rather than random. The records are stated to be those of the rows the mask picks from the candidates.
- Backend.ApiVictims: models the code as written, with right-closed bins; see Findings.
- Panels.SummaryPanel.Update: the `totalCrimes` and `avgAge` elements are assumed present. In the source an absent one throws, which the `try` catches.
- Cell types are idealised: areas and crime types are strings, and years, months, hours and ages are integers.

## Findings

| source | as written | input that shows it | evidently intended | confidence | as-written member | corrected member |
|---|---|---|---|---|---|---|
| app.py:175-178 | `pd.cut` with default right-closed bins (0,18], (18,30], (30,45], (45,60], (60,200] under labels "0-17", "18-29", "30-44", "45-59", "60+" | a victim aged 18 is counted under "0-17" (likewise 30 under "18-29", 45 under "30-44", 60 under "45-59") | left-closed bins (`right=False`), so that every age falls in the range its label names | not executed | Backend.AgeBinMislabelsEdges | Backend.IntendedAgeBinMatchesLabels |
| static/script.js:344, 384-386 | markers go on `L.layerGroup()`, which has no `getBounds`, so `markersLayer.getBounds()` throws and the surrounding `catch` swallows it | any /api/map response with at least one record: the map never leaves its initial view | `L.featureGroup()`, whose bounds are those of its markers, so the map fits to them | not executed | Panels.LayerGroupKeepsInitialView | Panels.FeatureGroupFitsMarkers |
