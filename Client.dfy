/** The dashboard client (static/script.js), its value-level logic: reading the
    filter controls, serialising a selection into a query, the queries one refresh
    sends, the summary defaults, the select options and the map's marker
    projection. The state the script keeps between refreshes is in module Panels. */
module Client {
  import opened Wrappers
  import opened Text

  /** A filter selection; the empty string means "no constraint". */
  datatype Filters = Filters(area: string, year: string, month: string)

  /** The three filter controls of the document: None for a control that is absent,
      Some(v) for a control whose current value is v. */
  datatype FilterControls = FilterControls(area: Option<string>, year: Option<string>, month: Option<string>)

  /** getFilters: each control's value, or '' for a control the document lacks. */
  function GetFilters(doc: FilterControls): (f: Filters)
    ensures doc.area.Some? ==> f.area == doc.area.value
    ensures doc.year.Some? ==> f.year == doc.year.value
    ensures doc.month.Some? ==> f.month == doc.month.value
    ensures doc.area.None? ==> f.area == ""
    ensures doc.year.None? ==> f.year == ""
    ensures doc.month.None? ==> f.month == ""
  {
    Filters(doc.area.GetOr(""), doc.year.GetOr(""), doc.month.GetOr(""))
  }

  // ===== buildQueryString =====

  /** One parameter `key=v`, or none when `v` is empty. */
  function Param(key: string, v: string): Query {
    if v == "" then [] else [(key, v)]
  }

  /** The query a selection serialises to: one parameter per non-empty field, in the
      order area, year, month. */
  function Serialize(f: Filters): Query {
    Param("area", f.area) + (Param("year", f.year) + Param("month", f.month))
  }

  /** Position of a filter key in the query. */
  function KeyRank(k: string): int {
    if k == "area" then 0 else if k == "year" then 1 else if k == "month" then 2 else 3
  }

  /** buildQueryString: appends area, year and month in turn, each only when it is
      not empty. */
  method BuildQueryString(f: Filters) returns (params: Query)
    ensures params == Serialize(f)
  {
    params := [];
    if f.area != "" {
      params := params + [("area", f.area)];
    }
    if f.year != "" {
      params := params + [("year", f.year)];
    }
    if f.month != "" {
      params := params + [("month", f.month)];
    }
  }

  lemma LookupAppendMissing(q: Query, extra: Query, key: string)
    requires Lookup(q, key).None?
    ensures Lookup(q + extra, key) == Lookup(extra, key)
  {
    if q != [] {
      assert (q + extra)[1..] == q[1..] + extra;
      LookupAppendMissing(q[1..], extra, key);
    } else {
      assert q + extra == extra;
    }
  }

  lemma LookupAppendFound(q: Query, extra: Query, key: string)
    requires Lookup(q, key).Some?
    ensures Lookup(q + extra, key) == Lookup(q, key)
  {
    if q[0].0 != key {
      assert (q + extra)[1..] == q[1..] + extra;
      LookupAppendFound(q[1..], extra, key);
    }
  }

  /** The lookup of `key` in `Param(k, v) + rest`. */
  lemma LookupParam(k: string, v: string, rest: Query, key: string)
    ensures Lookup(Param(k, v) + rest, key) == if k == key && v != "" then Some(v) else Lookup(rest, key)
  {
    if v == "" {
      assert Param(k, v) + rest == rest;
    } else {
      assert (Param(k, v) + rest)[0] == (k, v) && (Param(k, v) + rest)[1..] == rest;
    }
  }

  /** A serialised query never carries an empty value, and its keys are filter keys,
      each at most once, in the order area, year, month. */
  lemma SerializeShape(f: Filters)
    ensures forall i :: 0 <= i < |Serialize(f)| ==> Serialize(f)[i].1 != "" && KeyRank(Serialize(f)[i].0) < 3
    ensures forall i, j :: 0 <= i < j < |Serialize(f)| ==> KeyRank(Serialize(f)[i].0) < KeyRank(Serialize(f)[j].0)
  {
    var a, y, m := Param("area", f.area), Param("year", f.year), Param("month", f.month);
    var q := Serialize(f);
    forall i | 0 <= i < |q| ensures q[i].1 != "" && KeyRank(q[i].0) == if i < |a| then 0 else if i < |a| + |y| then 1 else 2 {
      if i < |a| { assert q[i] == a[i]; }
      else if i < |a| + |y| { assert q[i] == y[i - |a|]; }
      else { assert q[i] == m[i - |a| - |y|]; }
    }
  }

  /** Each field appears as a parameter exactly when it is not empty, with its value. */
  lemma SerializeLookup(f: Filters)
    ensures Lookup(Serialize(f), "area") == if f.area == "" then None else Some(f.area)
    ensures Lookup(Serialize(f), "year") == if f.year == "" then None else Some(f.year)
    ensures Lookup(Serialize(f), "month") == if f.month == "" then None else Some(f.month)
  {
    var tail := Param("year", f.year) + Param("month", f.month);
    forall key | key in ["area", "year", "month"]
      ensures Lookup(Serialize(f), key) == Lookup(Param("area", f.area) + tail, key)
    {
    }
    LookupParam("area", f.area, tail, "area");
    LookupParam("area", f.area, tail, "year");
    LookupParam("area", f.area, tail, "month");
    LookupParam("year", f.year, Param("month", f.month), "year");
    LookupParam("year", f.year, Param("month", f.month), "month");
    LookupParam("month", f.month, [], "month");
    assert Param("month", f.month) + [] == Param("month", f.month);
  }

  /** Reading the fields back out of a query, an absent parameter as ''. */
  function Deserialize(q: Query): Filters {
    Filters(Lookup(q, "area").GetOr(""), Lookup(q, "year").GetOr(""), Lookup(q, "month").GetOr(""))
  }

  /** Serialising loses nothing: the selection can be read back from its query. */
  lemma SerializeRoundTrip(f: Filters)
    ensures Deserialize(Serialize(f)) == f
  {
    SerializeLookup(f);
  }

  /** A control missing from the document puts no parameter in the query. */
  lemma MissingControlUnconstrained(doc: FilterControls)
    ensures doc.area.None? ==> Lookup(Serialize(GetFilters(doc)), "area").None?
    ensures doc.year.None? ==> Lookup(Serialize(GetFilters(doc)), "year").None?
    ensures doc.month.None? ==> Lookup(Serialize(GetFilters(doc)), "month").None?
  {
    SerializeLookup(GetFilters(doc));
  }

  // ===== the queries of one refresh =====

  /** The selection the area chart serialises: `{ year, month }`, area left undefined. */
  function AreaChartFilters(f: Filters): Filters {
    Filters("", f.year, f.month)
  }

  /** The map's fixed record limit. */
  const MapLimit: string := "500"

  /** The endpoints one dashboard refresh queries. */
  datatype Endpoint = Summary | ByArea | ByTime | ByType | Victims | MapPoints

  function Path(e: Endpoint): string {
    match e
    case Summary => "/api/summary"
    case ByArea => "/api/by_area"
    case ByTime => "/api/by_time"
    case ByType => "/api/by_type"
    case Victims => "/api/victims"
    case MapPoints => "/api/map"
  }

  /** updateDashboard: the endpoints of one refresh, in the order they are requested. */
  const RefreshOrder: seq<Endpoint> := [Summary, ByArea, ByTime, ByType, Victims, MapPoints]

  /** The query each endpoint is sent for a selection: the area chart drops the area,
      the map adds its limit, the others take the selection as it is. */
  function RequestQuery(e: Endpoint, f: Filters): Query {
    match e
    case ByArea => Serialize(AreaChartFilters(f))
    case MapPoints => MapQuery(f)
    case _ => Serialize(f)
  }

  /** The area chart's query never has an area parameter, whatever the selection, and
      otherwise agrees with the full query. */
  lemma AreaChartQueryHasNoArea(f: Filters)
    ensures forall i :: 0 <= i < |Serialize(AreaChartFilters(f))| ==> Serialize(AreaChartFilters(f))[i].0 != "area"
    ensures Lookup(Serialize(AreaChartFilters(f)), "year") == Lookup(Serialize(f), "year")
    ensures Lookup(Serialize(AreaChartFilters(f)), "month") == Lookup(Serialize(f), "month")
  {
    SerializeLookup(f);
    SerializeLookup(AreaChartFilters(f));
  }

  /** The query of the map request: the selection plus the fixed limit. */
  function MapQuery(f: Filters): Query {
    Serialize(f) + [("limit", MapLimit)]
  }

  /** The map query carries the selection unchanged, always asks for 500 records, and
      carries no empty value. */
  lemma MapQueryAgrees(f: Filters)
    ensures forall key :: KeyRank(key) < 3 ==> Lookup(MapQuery(f), key) == Lookup(Serialize(f), key)
    ensures Lookup(MapQuery(f), "limit") == Some(MapLimit)
    ensures forall i :: 0 <= i < |MapQuery(f)| ==> MapQuery(f)[i].1 != ""
  {
    var q := Serialize(f);
    SerializeShape(f);
    LookupAppendMissing(q, [("limit", MapLimit)], "limit");
    forall key | KeyRank(key) < 3 ensures Lookup(q + [("limit", MapLimit)], key) == Lookup(q, key) {
      if Lookup(q, key).Some? {
        LookupAppendFound(q, [("limit", MapLimit)], key);
      } else {
        LookupAppendMissing(q, [("limit", MapLimit)], key);
      }
    }
    forall i | 0 <= i < |MapQuery(f)| ensures MapQuery(f)[i].1 != "" {
      if i < |q| { assert MapQuery(f)[i] == q[i]; }
    }
  }

  /** Every request of a refresh carries the selection's year and month; every request
      but the area chart's carries its area, and the area chart's carries none; the map
      request always asks for 500 records. */
  lemma RequestQueryAgrees(e: Endpoint, f: Filters)
    ensures Lookup(RequestQuery(e, f), "year") == Lookup(Serialize(f), "year")
    ensures Lookup(RequestQuery(e, f), "month") == Lookup(Serialize(f), "month")
    ensures e != ByArea ==> Lookup(RequestQuery(e, f), "area") == Lookup(Serialize(f), "area")
    ensures e == ByArea ==> Lookup(RequestQuery(e, f), "area").None?
    ensures e == MapPoints ==> Lookup(RequestQuery(e, f), "limit") == Some(MapLimit)
  {
    match e
    case ByArea =>
      AreaChartQueryHasNoArea(f);
    case MapPoints =>
      MapQueryAgrees(f);
      assert KeyRank("area") < 3 && KeyRank("year") < 3 && KeyRank("month") < 3;
    case _ =>
  }

  // ===== summary =====

  /** The /api/summary payload: each field may be missing (or null). */
  datatype SummaryPayload = SummaryPayload(totalCrimes: Option<int>, avgVictimAge: Option<real>,
                                           dataSource: Option<string>, dataSourceAlt: Option<string>)

  /** A JavaScript truthiness test on an optional string. */
  predicate Truthy(v: Option<string>) {
    v.Some? && v.value != ""
  }

  /** `data.data_source || data.dataSource || null`. */
  function DataSourceLabel(p: SummaryPayload): (r: Option<string>)
    ensures r.None? <==> !Truthy(p.dataSource) && !Truthy(p.dataSourceAlt)
    ensures r.Some? ==> r.value != "" && (r == p.dataSource || r == p.dataSourceAlt)
    ensures Truthy(p.dataSource) ==> r == p.dataSource
  {
    if Truthy(p.dataSource) then p.dataSource
    else if Truthy(p.dataSourceAlt) then p.dataSourceAlt
    else None
  }

  /** `data.total_crimes ?? 0`. */
  function DisplayedTotal(p: SummaryPayload): int {
    p.totalCrimes.GetOr(0)
  }

  /** `data.avg_victim_age ?? 0` (before formatting). */
  function DisplayedAverage(p: SummaryPayload): real {
    p.avgVictimAge.GetOr(0.0)
  }

  /** A payload without numbers shows zeros; a present number is shown as given, zero included. */
  lemma SummaryDefaults(p: SummaryPayload)
    ensures DisplayedTotal(p) == (if p.totalCrimes.None? then 0 else p.totalCrimes.value)
    ensures DisplayedAverage(p) == (if p.avgVictimAge.None? then 0.0 else p.avgVictimAge.value)
  {
  }

  // ===== select options (loadFilters) =====

  datatype SelectOption = SelectOption(value: string, text: string)

  const MonthNames: seq<string> := ["All", "January", "February", "March", "April", "May", "June",
                                     "July", "August", "September", "October", "November", "December"]

  /** The month select: 'All' with value '', then each month's number and name. */
  method MonthOptions() returns (opts: seq<SelectOption>)
    ensures |opts| == 13 && opts[0] == SelectOption("", "All")
    ensures forall i :: 1 <= i <= 12 ==> opts[i] == SelectOption(NatToString(i), MonthNames[i])
  {
    opts := [SelectOption("", "All")];
    for i := 1 to 13
      invariant |opts| == i && opts[0] == SelectOption("", "All")
      invariant forall k :: 1 <= k < i ==> opts[k] == SelectOption(NatToString(k), MonthNames[k])
    {
      opts := opts + [SelectOption(NatToString(i), MonthNames[i])];
    }
  }

  /** The area and year selects: 'All' with value '', then one option per value given
      by the server, its value and text both that value. */
  method ChoiceOptions(values: seq<string>) returns (opts: seq<SelectOption>)
    ensures |opts| == |values| + 1 && opts[0] == SelectOption("", "All")
    ensures forall i :: 0 <= i < |values| ==> opts[i + 1] == SelectOption(values[i], values[i])
  {
    opts := [SelectOption("", "All")];
    for i := 0 to |values|
      invariant |opts| == i + 1 && opts[0] == SelectOption("", "All")
      invariant forall k :: 0 <= k < i ==> opts[k + 1] == SelectOption(values[k], values[k])
    {
      opts := opts + [SelectOption(values[i], values[i])];
    }
  }

  // ===== map markers =====

  /** A record of the /api/map payload. */
  datatype MapRecord = MapRecord(lat: Option<real>, lon: Option<real>, crime: string, area: string)

  /** The /api/map payload: the records, and the number of matching crimes (missing
      or null reads as 0). */
  datatype MapPayload = MapPayload(crimes: seq<MapRecord>, total: Option<int>)

  /** A circle marker at a record's position, its popup naming the crime and the area. */
  datatype Marker = Marker(lat: real, lon: real, crime: string, area: string)

  /** Both coordinates present (neither null nor undefined). */
  predicate Plottable(c: MapRecord) {
    c.lat.Some? && c.lon.Some?
  }

  function MarkerOf(c: MapRecord): Marker
    requires Plottable(c)
  {
    Marker(c.lat.value, c.lon.value, c.crime, c.area)
  }

  /** Which records are plottable, position by position. */
  function PlottableMask(crimes: seq<MapRecord>): (m: seq<bool>)
    ensures |m| == |crimes| && forall i :: 0 <= i < |crimes| ==> m[i] == Plottable(crimes[i])
  {
    seq(|crimes|, i requires 0 <= i < |crimes| => Plottable(crimes[i]))
  }

  /** The markers for a list of records: one per plottable record, in order. */
  function Markers(crimes: seq<MapRecord>): (ms: seq<Marker>)
    ensures |ms| <= |crimes|
  {
    if crimes == [] then []
    else
      Markers(crimes[..|crimes| - 1]) + (if Plottable(crimes[|crimes| - 1]) then [MarkerOf(crimes[|crimes| - 1])] else [])
  }

  /** One marker per plottable record. */
  lemma {:induction false} MarkersCount(crimes: seq<MapRecord>)
    ensures |Markers(crimes)| == Count(PlottableMask(crimes), true)
  {
    if crimes != [] {
      var init := crimes[..|crimes| - 1];
      MarkersCount(init);
      assert PlottableMask(crimes) == PlottableMask(init) + [Plottable(crimes[|crimes| - 1])];
      CountAppend(PlottableMask(init), [Plottable(crimes[|crimes| - 1])], true);
    }
  }

  /** Exactly the plottable records become markers, one marker per plottable record,
      so there are as many markers as records exactly when every record is plottable. */
  lemma {:induction false} MarkersOfPlottable(crimes: seq<MapRecord>)
    ensures |Markers(crimes)| == Count(PlottableMask(crimes), true)
    ensures |Markers(crimes)| == |crimes| <==> forall c :: c in crimes ==> Plottable(c)
    ensures forall c :: c in crimes && Plottable(c) ==> MarkerOf(c) in Markers(crimes)
    ensures forall m :: m in Markers(crimes) ==> exists c :: c in crimes && Plottable(c) && m == MarkerOf(c)
  {
    MarkersCount(crimes);
    if crimes != [] {
      var init, last := crimes[..|crimes| - 1], crimes[|crimes| - 1];
      MarkersOfPlottable(init);
      assert forall c :: c in crimes <==> c in init || c == last;
    }
  }
}
