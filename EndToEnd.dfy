/** The dashboard and its server together: what the backend computes for the queries
    the client actually sends, and what the client shows for what the backend returns. */
module EndToEnd {
  import opened Wrappers
  import opened Text
  import B = Backend
  import C = Client
  import P = Panels

  /** A selection field as filter_data receives it: the client leaves empty fields out
      of the query. */
  function Arg(v: string): Option<string> {
    if v == "" then None else Some(v)
  }

  /** The server filters by exactly the client's selection; a field left at 'All'
      (the empty value) constrains nothing. */
  lemma SelectionReachesServer(df: B.Frame, f: C.Filters)
    ensures B.Filtered(df, C.Serialize(f)) == B.FilterFrame(df, Arg(f.area), Arg(f.year), Arg(f.month))
  {
    C.SerializeLookup(f);
  }

  /** The rows behind every panel but the area chart: those of the table meeting each
      non-empty field of the selection. */
  lemma SelectionRows(df: B.Frame, f: C.Filters, row: B.Row)
    ensures row in B.Filtered(df, C.Serialize(f)).rows <==>
      row in df.rows && B.Admits(df.columns, Arg(f.area), Arg(f.year), Arg(f.month), row)
  {
    SelectionReachesServer(df, f);
    B.FilterMembership(df, Arg(f.area), Arg(f.year), Arg(f.month), row);
  }

  /** Dropping the area from the area chart's query does not change the chart: the server
      ignores the area argument of /api/by_area. */
  lemma AreaChartAsServerComputes(df: B.Frame, f: C.Filters)
    ensures B.ApiByArea(df, C.RequestQuery(C.ByArea, f)) == B.ApiByArea(df, C.Serialize(f))
  {
    C.RequestQueryAgrees(C.ByArea, f);
    C.SerializeLookup(f);
  }

  /** The map request always carries a limit the server accepts: 500. */
  lemma MapLimitAccepted(f: C.Filters)
    ensures B.LimitArg(C.RequestQuery(C.MapPoints, f)) == Some(500)
  {
    C.RequestQueryAgrees(C.MapPoints, f);
    ParseLimit();
  }

  lemma ParseLimit()
    ensures ParseInt(C.MapLimit) == Some(500)
  {
    var s := C.MapLimit;
    assert AllDigits(s);
    assert s[..2] == "50" && s[..2][..1] == "5";
    assert DigitsValue("5") == 5;
    assert DigitsValue("50") == 50;
  }

  /** Choosing month option i (1 to 12) filters on month i. */
  lemma MonthOptionFiltersMonth(columns: set<B.Column>, i: nat)
    requires 1 <= i <= 12
    ensures B.MonthStep(columns, Arg(NatToString(i))) == if B.Month in columns then Some(B.MonthIs(i)) else None
  {
    assert NatToString(i) == IntToString(i);
    ParseIntToString(i);
    assert NatToString(i) != "All" by {
      assert IsDigit(NatToString(i)[0]);
    }
  }

  /** Choosing a year option offered by /api/filters filters on a year of the table. */
  lemma YearOptionFiltersYear(df: B.Frame, k: nat)
    requires 1 <= k < |B.ApiFilters(df).years|
    ensures exists y :: y in B.YearValues(df) && B.YearStep(df.columns, Arg(B.ApiFilters(df).years[k])) == Some(B.YearIs(y))
  {
    var s := B.ApiFilters(df).years[k];
    B.ApiFiltersYears(df);
    assert s in B.ApiFilters(df).years[1..];
    YearStringSelects(df.columns, s, B.YearValues(df));
  }

  lemma YearStringSelects(columns: set<B.Column>, s: string, years: seq<int>)
    requires ParseInt(s).Some? && ParseInt(s).value in years
    requires years != [] ==> B.Year in columns
    ensures exists y :: y in years && B.YearStep(columns, Arg(s)) == Some(B.YearIs(y))
  {
    assert s != "" && s != "All" by {
      assert IsDigit(s[|s| - 1]);
    }
    assert B.YearStep(columns, Arg(s)) == Some(B.YearIs(ParseInt(s).value));
  }

  /** A record of the map response as the client reads it. */
  function ToRecord(c: B.CrimePoint): C.MapRecord {
    C.MapRecord(c.lat, c.lon, c.crime, c.area)
  }

  function ToRecords(cs: seq<B.CrimePoint>): (rs: seq<C.MapRecord>)
    ensures |rs| == |cs| && forall i :: 0 <= i < |cs| ==> rs[i] == ToRecord(cs[i])
  {
    seq(|cs|, i requires 0 <= i < |cs| => ToRecord(cs[i]))
  }

  /** The records /api/map answers the client's map query with, as the client reads
      them: with both coordinate columns, up to 500 of the candidate rows, each at a
      non-zero position; without map columns, none. */
  method FetchMap(df: B.Frame, f: C.Filters, mask: seq<bool>) returns (records: seq<C.MapRecord>, total: int)
    requires B.ValidDraw(B.MapCandidates(B.Filtered(df, C.MapQuery(f)), B.PresentColumns(B.MapColumnOrder, df.columns)), 500, mask)
    ensures B.Lat in df.columns && B.Lon in df.columns ==>
      var candidates := B.MapCandidates(B.Filtered(df, C.MapQuery(f)), B.PresentColumns(B.MapColumnOrder, df.columns));
      |records| == (if |candidates| > 500 then 500 else |candidates|) &&
      forall c :: c in records ==> c.lat.Some? && c.lat.value != 0.0 && c.lon.Some? && c.lon.value != 0.0
    ensures B.PresentColumns(B.MapColumnOrder, df.columns) == [] ==> records == []
  {
    MapLimitAccepted(f);
    assert C.RequestQuery(C.MapPoints, f) == C.MapQuery(f);
    var cols := B.PresentColumns(B.MapColumnOrder, df.columns);
    var r := B.ApiMap(df, C.MapQuery(f), mask);
    assert r.Ok?;
    var crimes := r.value.crimes;
    records := ToRecords(crimes);
    total := r.value.total;
    if B.Lat in df.columns && B.Lon in df.columns {
      assert B.Lat in cols && B.Lon in cols;
      RecordsOffOrigin(crimes);
    }
  }

  lemma RecordsOffOrigin(crimes: seq<B.CrimePoint>)
    requires forall c :: c in crimes ==> c.lat.Some? && c.lat.value != 0.0 && c.lon.Some? && c.lon.value != 0.0
    ensures forall c :: c in ToRecords(crimes) ==> c.lat.Some? && c.lat.value != 0.0 && c.lon.Some? && c.lon.value != 0.0
  {
    var records := ToRecords(crimes);
    forall c | c in records ensures c.lat.Some? && c.lat.value != 0.0 && c.lon.Some? && c.lon.value != 0.0 {
      var i :| 0 <= i < |records| && records[i] == c;
      assert crimes[i] in crimes;
    }
  }

  /** Records with both coordinates, neither zero, each become a marker off the origin. */
  lemma PlottedOffOrigin(records: seq<C.MapRecord>)
    requires forall c :: c in records ==> c.lat.Some? && c.lat.value != 0.0 && c.lon.Some? && c.lon.value != 0.0
    ensures |C.Markers(records)| == |records|
    ensures forall m :: m in C.Markers(records) ==> m.lat != 0.0 && m.lon != 0.0
  {
    C.MarkersOfPlottable(records);
  }

  /** One map refresh, server and client together: the client's query is answered by
      api_map and the response drawn on the map. When the table has both coordinate
      columns every record returned becomes a marker, so the map shows up to 500 of the
      plottable rows, none at the origin. */
  method ShowMap(view: P.MapView, df: B.Frame, f: C.Filters, mask: seq<bool>) returns (failed: bool)
    requires B.ValidDraw(B.MapCandidates(B.Filtered(df, C.MapQuery(f)), B.PresentColumns(B.MapColumnOrder, df.columns)), 500, mask)
    modifies view
    ensures B.Lat in df.columns && B.Lon in df.columns ==>
      var candidates := B.MapCandidates(B.Filtered(df, C.MapQuery(f)), B.PresentColumns(B.MapColumnOrder, df.columns));
      |view.markers| == if |candidates| > 500 then 500 else |candidates|
    ensures B.Lat in df.columns && B.Lon in df.columns ==>
      forall m :: m in view.markers ==> m.lat != 0.0 && m.lon != 0.0
    ensures B.PresentColumns(B.MapColumnOrder, df.columns) == [] ==> view.markers == [] && !failed
  {
    var records, total := FetchMap(df, f, mask);
    failed := view.Update(C.MapPayload(records, Some(total)), true);
    if B.Lat in df.columns && B.Lon in df.columns {
      PlottedOffOrigin(records);
    }
  }
}
