/** The Flask backend (app.py) on its real-data branches: the cleaned crime table,
    `filter_data`, and the aggregations the JSON endpoints return. The branches
    taken when no table is loaded fabricate random data and are not modelled. */
module Backend {
  import opened Wrappers
  import opened Text
  import opened Pandas

  /** The columns of the crime table the endpoints read. */
  datatype Column = AreaName | Year | Month | Hour | CrimeDesc | VictimAge | VictimSex | Lat | Lon

  /** One row of the table. None is a missing value (NaN); a column the table lacks
      is never read, whatever its field holds. Coordinates are opaque numbers that
      are only ever compared with zero. */
  datatype Row = Row(area: Option<string>, year: Option<int>, month: Option<int>, hour: Option<int>,
                     crime: Option<string>, victimAge: Option<int>, victimSex: Option<string>,
                     lat: Option<real>, lon: Option<real>)

  /** A DataFrame: the columns it has and its rows in order. */
  datatype Frame = Frame(columns: set<Column>, rows: seq<Row>)

  /** `series.dropna()`: the present values, in order. */
  function DropNa<T(!new)>(xs: seq<Option<T>>): (r: seq<T>)
    ensures |r| <= |xs|
    ensures forall x :: x in r <==> Some(x) in xs
  {
    if xs == [] then []
    else
      var rest := DropNa(xs[1..]);
      assert forall x :: Some(x) in xs <==> xs[0] == Some(x) || Some(x) in xs[1..];
      match xs[0]
      case Some(v) => [v] + rest
      case None => rest
  }

  function AreaValues(f: Frame): seq<string> {
    if AreaName in f.columns then DropNa(seq(|f.rows|, i requires 0 <= i < |f.rows| => f.rows[i].area)) else []
  }

  function YearValues(f: Frame): seq<int> {
    if Year in f.columns then DropNa(seq(|f.rows|, i requires 0 <= i < |f.rows| => f.rows[i].year)) else []
  }

  function HourValues(f: Frame): seq<int> {
    if Hour in f.columns then DropNa(seq(|f.rows|, i requires 0 <= i < |f.rows| => f.rows[i].hour)) else []
  }

  function CrimeValues(f: Frame): seq<string> {
    if CrimeDesc in f.columns then DropNa(seq(|f.rows|, i requires 0 <= i < |f.rows| => f.rows[i].crime)) else []
  }

  function AgeValues(f: Frame): seq<int> {
    if VictimAge in f.columns then DropNa(seq(|f.rows|, i requires 0 <= i < |f.rows| => f.rows[i].victimAge)) else []
  }

  function SexValues(f: Frame): seq<string> {
    if VictimSex in f.columns then DropNa(seq(|f.rows|, i requires 0 <= i < |f.rows| => f.rows[i].victimSex)) else []
  }

  // ===== filter_data =====

  /** A filter argument that constrains nothing: None, empty, or 'All'. */
  predicate Unconstrained(v: Option<string>) {
    v.None? || v.value == "" || v.value == "All"
  }

  /** The equality test one step of filter_data applies to a column. */
  datatype Criterion = AreaIs(area: string) | YearIs(year: int) | MonthIs(month: int)

  predicate Holds(c: Criterion, row: Row) {
    match c
    case AreaIs(a) => row.area == Some(a)
    case YearIs(y) => row.year == Some(y)
    case MonthIs(m) => row.month == Some(m)
  }

  /** The area step: skipped for a trivial argument or a table without the column. */
  function AreaStep(columns: set<Column>, area: Option<string>): Option<Criterion> {
    if Unconstrained(area) || AreaName !in columns then None else Some(AreaIs(area.value))
  }

  /** The year step: also skipped when `int(year)` raises. */
  function YearStep(columns: set<Column>, year: Option<string>): Option<Criterion> {
    if Unconstrained(year) || Year !in columns then None
    else match ParseInt(year.value)
      case None => None
      case Some(y) => Some(YearIs(y))
  }

  /** The month step: also skipped when `int(month)` raises. */
  function MonthStep(columns: set<Column>, month: Option<string>): Option<Criterion> {
    if Unconstrained(month) || Month !in columns then None
    else match ParseInt(month.value)
      case None => None
      case Some(m) => Some(MonthIs(m))
  }

  predicate Meets(c: Option<Criterion>, row: Row) {
    c.None? || Holds(c.value, row)
  }

  /** `filtered[filtered[col] == v]` for a step that applies, the rows unchanged otherwise. */
  function Keep(c: Option<Criterion>, rows: seq<Row>): seq<Row> {
    match c
    case None => rows
    case Some(k) => Filter(rows, row => Holds(k, row))
  }

  /** filter_data on a loaded table: the area, year and month steps in turn. */
  function FilterFrame(df: Frame, area: Option<string>, year: Option<string>, month: Option<string>): (r: Frame)
    ensures r.columns == df.columns
    ensures |r.rows| <= |df.rows|
  {
    var byArea := Keep(AreaStep(df.columns, area), df.rows);
    var byYear := Keep(YearStep(df.columns, year), byArea);
    Frame(df.columns, Keep(MonthStep(df.columns, month), byYear))
  }

  /** filter_data: None exactly when no table is loaded. */
  function FilterData(df: Option<Frame>, area: Option<string>, year: Option<string>, month: Option<string>): (r: Option<Frame>)
    ensures r.None? <==> df.None?
    ensures r.Some? ==> r.value.columns == df.value.columns && IsSubsequence(r.value.rows, df.value.rows)
  {
    match df
    case None => None
    case Some(d) =>
      FilterKeepsOrder(d, area, year, month);
      Some(FilterFrame(d, area, year, month))
  }

  /** Whether a row meets every constraint filter_data imposes, read off the arguments. */
  predicate Admits(columns: set<Column>, area: Option<string>, year: Option<string>, month: Option<string>, row: Row) {
    && (Unconstrained(area) || AreaName !in columns || row.area == Some(area.value))
    && (Unconstrained(year) || Year !in columns || ParseInt(year.value).None? || row.year == ParseInt(year.value))
    && (Unconstrained(month) || Month !in columns || ParseInt(month.value).None? || row.month == ParseInt(month.value))
  }

  /** The rows filter_data keeps, as one conjunctive pass over the table. */
  function Selection(df: Frame, area: Option<string>, year: Option<string>, month: Option<string>): seq<Row> {
    Filter(df.rows, row => Admits(df.columns, area, year, month, row))
  }

  lemma AdmitsIsAllSteps(columns: set<Column>, area: Option<string>, year: Option<string>, month: Option<string>, row: Row)
    ensures Admits(columns, area, year, month, row) <==>
      Meets(AreaStep(columns, area), row) && Meets(YearStep(columns, year), row) && Meets(MonthStep(columns, month), row)
  {
  }

  lemma KeepCons(c: Option<Criterion>, h: Row, t: seq<Row>)
    ensures Keep(c, [h] + t) == (if Meets(c, h) then [h] else []) + Keep(c, t)
  {
    assert ([h] + t)[0] == h && ([h] + t)[1..] == t;
  }

  lemma KeepAppend(c: Option<Criterion>, xs: seq<Row>, ys: seq<Row>)
    ensures Keep(c, xs + ys) == Keep(c, xs) + Keep(c, ys)
  {
    if c.Some? {
      FilterAppend(xs, ys, row => Holds(c.value, row));
    }
  }

  /** The three steps applied one after another distribute over concatenation. */
  lemma StepsAppend(a: Option<Criterion>, y: Option<Criterion>, m: Option<Criterion>, xs: seq<Row>, ys: seq<Row>)
    ensures Keep(m, Keep(y, Keep(a, xs + ys))) == Keep(m, Keep(y, Keep(a, xs))) + Keep(m, Keep(y, Keep(a, ys)))
  {
    KeepAppend(a, xs, ys);
    KeepAppend(y, Keep(a, xs), Keep(a, ys));
    KeepAppend(m, Keep(y, Keep(a, xs)), Keep(y, Keep(a, ys)));
  }

  /** On a single row the three steps keep it exactly when it meets all three. */
  lemma StepsOnRow(a: Option<Criterion>, y: Option<Criterion>, m: Option<Criterion>, h: Row)
    ensures Keep(m, Keep(y, Keep(a, [h]))) == if Meets(a, h) && Meets(y, h) && Meets(m, h) then [h] else []
  {
    assert [h] == [h] + [];
    KeepCons(a, h, []);
    KeepCons(y, h, []);
    KeepCons(m, h, []);
    assert Keep(a, []) == [] && Keep(y, []) == [] && Keep(m, []) == [];
  }

  /** The three steps of filter_data, one after another, keep exactly the rows one
      conjunctive pass keeps, in the same order. */
  lemma {:induction false} FilterIsSelection(df: Frame, area: Option<string>, year: Option<string>, month: Option<string>)
    ensures FilterFrame(df, area, year, month).rows == Selection(df, area, year, month)
    decreases |df.rows|
  {
    var a, y, m := AreaStep(df.columns, area), YearStep(df.columns, year), MonthStep(df.columns, month);
    if df.rows != [] {
      var h, t := df.rows[0], df.rows[1..];
      assert df.rows == [h] + t;
      FilterIsSelection(Frame(df.columns, t), area, year, month);
      StepsAppend(a, y, m, [h], t);
      StepsOnRow(a, y, m, h);
      AdmitsIsAllSteps(df.columns, area, year, month, h);
    }
  }

  /** filter_data keeps an order-preserving selection of the rows. */
  lemma FilterKeepsOrder(df: Frame, area: Option<string>, year: Option<string>, month: Option<string>)
    ensures IsSubsequence(FilterFrame(df, area, year, month).rows, df.rows)
  {
    FilterIsSelection(df, area, year, month);
  }

  /** A row survives filter_data exactly when it meets every non-trivial constraint:
      a trivial argument, a missing column or an argument that is not an integer
      constrains nothing. */
  lemma FilterMembership(df: Frame, area: Option<string>, year: Option<string>, month: Option<string>, row: Row)
    ensures row in FilterFrame(df, area, year, month).rows <==> row in df.rows && Admits(df.columns, area, year, month, row)
  {
    FilterIsSelection(df, area, year, month);
  }

  /** With every argument trivial, filter_data returns the table unchanged. */
  lemma FilterUnconstrained(df: Frame, area: Option<string>, year: Option<string>, month: Option<string>)
    requires Unconstrained(area) && Unconstrained(year) && Unconstrained(month)
    ensures FilterFrame(df, area, year, month) == df
  {
  }

  /** A year or month that is not an integer is ignored, as if it had not been given. */
  lemma FilterIgnoresNonIntegers(df: Frame, area: Option<string>, year: string, month: string)
    ensures ParseInt(year).None? ==> FilterFrame(df, area, Some(year), Some(month)) == FilterFrame(df, area, None, Some(month))
    ensures ParseInt(month).None? ==> FilterFrame(df, area, Some(year), Some(month)) == FilterFrame(df, area, Some(year), None)
  {
  }

  // ===== reading the request =====

  /** `request.args.get(key, 'All')`. */
  function ArgOrAll(args: Query, key: string): string {
    Lookup(args, key).GetOr("All")
  }

  /** filter_data(area, year, month) on the three request arguments, as every endpoint
      but /api/by_area calls it. */
  function Filtered(df: Frame, args: Query): Frame {
    FilterFrame(df, Some(ArgOrAll(args, "area")), Some(ArgOrAll(args, "year")), Some(ArgOrAll(args, "month")))
  }

  // ===== /api/filters =====

  datatype FilterOptions = FilterOptions(areas: seq<string>, years: seq<string>, months: seq<string>)

  function YearStrings(ys: seq<int>): (r: seq<string>)
    ensures |r| == |ys| && forall i :: 0 <= i < |ys| ==> r[i] == IntToString(ys[i])
  {
    seq(|ys|, i requires 0 <= i < |ys| => IntToString(ys[i]))
  }

  /** The month choices: 'All' then "1" to "12". */
  function MonthChoices(): (r: seq<string>)
    ensures |r| == 13 && r[0] == "All"
    ensures forall i :: 1 <= i <= 12 ==> r[i] == IntToString(i) && ParseInt(r[i]) == Some(i)
  {
    var r := ["All"] + seq(12, i requires 0 <= i < 12 => NatToString(i + 1));
    assert forall i :: 1 <= i <= 12 ==> r[i] == IntToString(i);
    forall i | 1 <= i <= 12 ensures ParseInt(IntToString(i)) == Some(i) { ParseIntToString(i); }
    r
  }

  /** api_filters: 'All' then the distinct areas sorted, 'All' then the distinct years
      as strings sorted as strings, and the month choices. */
  function ApiFilters(df: Frame): (r: FilterOptions)
    ensures |r.areas| >= 1 && r.areas[0] == "All" && StrictlySorted(r.areas[1..])
    ensures forall a :: a in r.areas[1..] <==> a in AreaValues(df)
    ensures |r.years| >= 1 && r.years[0] == "All" && StrictlySorted(r.years[1..])
    ensures r.months == MonthChoices()
  {
    FilterOptions(["All"] + SortedUnique(AreaValues(df)),
                  ["All"] + SortedUnique(YearStrings(YearValues(df))),
                  MonthChoices())
  }

  /** The year choices are exactly the years in the table, each one parsing back to its year. */
  lemma ApiFiltersYears(df: Frame)
    ensures forall s :: s in ApiFilters(df).years[1..] ==> ParseInt(s).Some? && ParseInt(s).value in YearValues(df)
    ensures forall y :: y in YearValues(df) ==> IntToString(y) in ApiFilters(df).years[1..]
  {
    var ys := YearValues(df);
    var years := ApiFilters(df).years[1..];
    assert years == SortedUnique(YearStrings(ys));
    forall s | s in years ensures ParseInt(s).Some? && ParseInt(s).value in ys {
      assert s in YearStrings(ys);
      var i :| 0 <= i < |ys| && YearStrings(ys)[i] == s;
      ParseIntToString(ys[i]);
    }
    forall y | y in ys ensures IntToString(y) in years {
      var i :| 0 <= i < |ys| && ys[i] == y;
      assert YearStrings(ys)[i] == IntToString(y);
    }
  }

  // ===== /api/by_area and /api/by_type =====

  /** The labels/data pair a chart endpoint returns. */
  datatype ChartData = ChartData(labels: seq<string>, data: seq<nat>)

  function ChartOf(r: seq<(string, nat)>): (c: ChartData)
    ensures |c.labels| == |c.data| == |r|
  {
    ChartData(Labels(r), Counts(r))
  }

  /** The rows /api/by_area counts: filter_data(None, year, month). */
  function ByAreaRows(df: Frame, args: Query): Frame {
    FilterFrame(df, None, Some(ArgOrAll(args, "year")), Some(ArgOrAll(args, "month")))
  }

  /** api_by_area: the 20 most frequent areas among the rows of the requested year and
      month, each with its number of rows, most frequent first. */
  function ApiByArea(df: Frame, args: Query): (r: ChartData)
    ensures |r.labels| == |r.data| <= 20
    ensures forall i :: 0 <= i < |r.labels| ==> r.data[i] == Count(AreaValues(ByAreaRows(df, args)), r.labels[i]) > 0
    ensures forall i, j :: 0 <= i < j < |r.labels| ==> r.data[i] >= r.data[j] && r.labels[i] != r.labels[j]
  {
    var filtered := ByAreaRows(df, args);
    if AreaName !in filtered.columns then ChartData([], []) else ChartOf(TopCounts(AreaValues(filtered), 20))
  }

  /** An area left off the /api/by_area chart is no more frequent than the 20th one shown. */
  lemma ApiByAreaComplete(df: Frame, args: Query, a: string)
    requires a in AreaValues(ByAreaRows(df, args))
    ensures var r := ApiByArea(df, args);
      a in r.labels || (|r.labels| == 20 && Count(AreaValues(ByAreaRows(df, args)), a) <= r.data[19])
  {
    TopCountsComplete(AreaValues(ByAreaRows(df, args)), 20, a);
  }

  /** /api/by_area does not read the area argument. */
  lemma ApiByAreaIgnoresArea(df: Frame, args: Query, area: string)
    ensures ApiByArea(df, [("area", area)] + args) == ApiByArea(df, args)
  {
    assert Lookup([("area", area)] + args, "year") == Lookup(args, "year");
    assert Lookup([("area", area)] + args, "month") == Lookup(args, "month");
  }

  /** api_by_type: the 10 most frequent crime descriptions among the filtered rows. */
  function ApiByType(df: Frame, args: Query): (r: ChartData)
    ensures |r.labels| == |r.data| <= 10
    ensures forall i :: 0 <= i < |r.labels| ==> r.data[i] == Count(CrimeValues(Filtered(df, args)), r.labels[i]) > 0
    ensures forall i, j :: 0 <= i < j < |r.labels| ==> r.data[i] >= r.data[j] && r.labels[i] != r.labels[j]
  {
    var filtered := Filtered(df, args);
    if CrimeDesc !in filtered.columns then ChartData([], []) else ChartOf(TopCounts(CrimeValues(filtered), 10))
  }

  /** A crime type left off the /api/by_type chart is no more frequent than the 10th one
      shown. */
  lemma ApiByTypeComplete(df: Frame, args: Query, t: string)
    requires t in CrimeValues(Filtered(df, args))
    ensures var r := ApiByType(df, args);
      t in r.labels || (|r.labels| == 10 && Count(CrimeValues(Filtered(df, args)), t) <= r.data[9])
  {
    TopCountsComplete(CrimeValues(Filtered(df, args)), 10, t);
  }

  // ===== /api/by_time =====

  function HourLabel(h: nat): string {
    NatToString(h) + ":00"
  }

  /** api_by_time: 24 labels "0:00" to "23:00" and, for each hour, the number of
      filtered rows at that hour; zero for hours without rows and for a table
      without an hour column. */
  method ApiByTime(df: Frame, args: Query) returns (r: ChartData)
    ensures |r.labels| == 24 && |r.data| == 24
    ensures forall h :: 0 <= h < 24 ==> r.labels[h] == HourLabel(h)
    ensures forall h :: 0 <= h < 24 ==> r.data[h] == Count(HourValues(Filtered(df, args)), h)
  {
    var filtered := Filtered(df, args);
    var labels := seq(24, h requires 0 <= h < 24 => HourLabel(h));
    if Hour !in filtered.columns {
      return ChartData(labels, seq(24, _ => 0));
    }
    var counts := HourHistogram(HourValues(filtered));
    r := ChartData(labels, counts);
  }

  /** `all_hours = pd.Series(0, index=range(24))` updated in place with the hour counts:
      slot h ends up holding the number of rows at hour h, hours outside 0 to 23 being
      dropped by the index alignment. */
  method HourHistogram(hours: seq<int>) returns (counts: seq<nat>)
    ensures |counts| == 24
    ensures forall h :: 0 <= h < 24 ==> counts[h] == Count(hours, h)
  {
    var hourCounts := ValueCounts(hours);
    var allHours := new nat[24](_ => 0);
    for h := 0 to 24
      invariant forall k :: 0 <= k < h ==> allHours[k] == Count(hours, k)
      invariant forall k :: h <= k < 24 ==> allHours[k] == 0
    {
      if h in hourCounts {
        allHours[h] := hourCounts[h];
      } else {
        assert h !in hours;
      }
    }
    counts := allHours[..];
  }

  // ===== /api/victims =====

  /** The bin edges and labels api_victims hands to pd.cut. */
  const AgeEdges: seq<int> := [0, 18, 30, 45, 60, 200]
  const AgeLabels: seq<string> := ["0-17", "18-29", "30-44", "45-59", "60+"]

  /** The bin `pd.cut(age, bins=AgeEdges, include_lowest=True)` assigns: right-closed
      bins (lo, hi], the lowest edge 0 included; None (NaN) outside [0, 200]. */
  function AgeBin(age: int): (b: Option<nat>)
    ensures b.Some? <==> 0 <= age <= 200
    ensures b.Some? ==> b.value < 5 && age <= AgeEdges[b.value + 1]
    ensures b.Some? ==> AgeEdges[b.value] < age || (age == 0 && b.value == 0)
  {
    if age < 0 || age > 200 then None
    else if age <= 18 then Some(0)
    else if age <= 30 then Some(1)
    else if age <= 45 then Some(2)
    else if age <= 60 then Some(3)
    else Some(4)
  }

  function Bins(ages: seq<int>): (r: seq<Option<nat>>)
    ensures |r| == |ages| && forall i :: 0 <= i < |ages| ==> r[i] == AgeBin(ages[i])
  {
    seq(|ages|, i requires 0 <= i < |ages| => AgeBin(ages[i]))
  }

  /** The response of api_victims: age and gender distributions. */
  datatype VictimsData = VictimsData(ages: ChartData, genders: ChartData)

  /** api_victims: the five age labels in order with the number of filtered victims
      in each bin (empty lists when the table has no age column), and every victim
      sex with its count, most frequent first. */
  function ApiVictims(df: Frame, args: Query): (r: VictimsData)
    ensures VictimAge !in df.columns ==> r.ages == ChartData([], [])
    ensures VictimAge in df.columns ==> r.ages.labels == AgeLabels && |r.ages.data| == 5
    ensures VictimAge in df.columns ==> forall b :: 0 <= b < 5 ==>
      r.ages.data[b] == Count(Bins(AgeValues(Filtered(df, args))), Some(b))
    ensures |r.genders.labels| == |r.genders.data|
    ensures forall i :: 0 <= i < |r.genders.labels| ==> r.genders.data[i] == Count(SexValues(Filtered(df, args)), r.genders.labels[i]) > 0
    ensures forall i, j :: 0 <= i < j < |r.genders.labels| ==> r.genders.data[i] >= r.genders.data[j] && r.genders.labels[i] != r.genders.labels[j]
  {
    var filtered := Filtered(df, args);
    var ages :=
      if VictimAge in filtered.columns then
        var binned := Bins(AgeValues(filtered));
        ChartData(AgeLabels, seq(5, b requires 0 <= b < 5 => Count(binned, Some(b))))
      else ChartData([], []);
    var sexes := SexValues(filtered);
    var genders := if VictimSex in filtered.columns then ChartOf(TopCounts(sexes, |sexes|)) else ChartData([], []);
    VictimsData(ages, genders)
  }

  /** Every victim sex among the filtered rows is listed in the gender distribution. */
  lemma ApiVictimsGendersComplete(df: Frame, args: Query, s: string)
    requires s in SexValues(Filtered(df, args))
    ensures s in ApiVictims(df, args).genders.labels
  {
    var sexes := SexValues(Filtered(df, args));
    TopCountsAll(sexes, |sexes|, s);
  }

  /** The ages that fall in some bin. */
  function Binnable(ages: seq<int>): (r: seq<int>)
    ensures forall a :: a in r <==> a in ages && 0 <= a <= 200
  {
    Filter(ages, a => 0 <= a <= 200)
  }

  function BinTotal(binned: seq<Option<nat>>): nat {
    Count(binned, Some(0)) + Count(binned, Some(1)) + Count(binned, Some(2)) + Count(binned, Some(3)) + Count(binned, Some(4))
  }

  /** Removing the first binned value lowers the five-bin total by one exactly when that
      value has a bin. */
  lemma BinTotalCons(xs: seq<Option<nat>>)
    requires xs != []
    ensures BinTotal(xs) == BinTotal(xs[1..]) + (if xs[0].Some? && xs[0].value < 5 then 1 else 0)
  {
  }

  lemma BinnableCons(ages: seq<int>)
    requires ages != []
    ensures |Binnable(ages)| == |Binnable(ages[1..])| + (if 0 <= ages[0] <= 200 then 1 else 0)
  {
  }

  /** Every age in [0, 200] is counted in exactly one bin and no other age is counted:
      the five counts add up to the number of such ages. */
  lemma {:induction false} AgeBinsPartition(ages: seq<int>)
    ensures BinTotal(Bins(ages)) == |Binnable(ages)|
  {
    if ages != [] {
      AgeBinsPartition(ages[1..]);
      assert Bins(ages)[1..] == Bins(ages[1..]);
      BinTotalCons(Bins(ages));
      BinnableCons(ages);
    }
  }

  /** The age range each label names: "0-17" is 0 to 17, ..., "60+" is 60 upward. */
  const LabelLow: seq<int> := [0, 18, 30, 45, 60]
  const LabelHigh: seq<int> := [17, 29, 44, 59]

  predicate LabelCovers(b: nat, age: int)
    requires b < 5
  {
    LabelLow[b] <= age && (b == 4 || age <= LabelHigh[b])
  }

  lemma TwoDigits(n: nat)
    requires 10 <= n < 100
    ensures NatToString(n) == [DigitChar(n / 10), DigitChar(n % 10)]
  {
  }

  /** The labels spell out the ranges LabelLow and LabelHigh give. */
  lemma AgeLabelsSpellRanges()
    ensures forall b :: 0 <= b < 4 ==> AgeLabels[b] == NatToString(LabelLow[b]) + "-" + NatToString(LabelHigh[b])
    ensures AgeLabels[4] == NatToString(LabelLow[4]) + "+"
  {
    assert NatToString(0) == "0";
    TwoDigits(17);
    TwoDigits(18);
    TwoDigits(29);
    TwoDigits(30);
    TwoDigits(44);
    TwoDigits(45);
    TwoDigits(59);
    TwoDigits(60);
    assert AgeLabels[0] == NatToString(0) + "-" + NatToString(17);
    assert AgeLabels[1] == NatToString(18) + "-" + NatToString(29);
    assert AgeLabels[2] == NatToString(30) + "-" + NatToString(44);
    assert AgeLabels[3] == NatToString(45) + "-" + NatToString(59);
  }

  /** As written, each of the ages 18, 30, 45 and 60 lands in the bin whose label
      excludes it: 18 is counted under "0-17", 30 under "18-29", and so on. */
  lemma AgeBinMislabelsEdges()
    ensures forall b :: 0 <= b < 4 ==> AgeBin(LabelLow[b + 1]) == Some(b) && !LabelCovers(b, LabelLow[b + 1])
  {
    assert AgeBin(18) == Some(0) && AgeBin(30) == Some(1) && AgeBin(45) == Some(2) && AgeBin(60) == Some(3);
  }

  /** The binning the labels describe: `pd.cut(..., right=False)`, that is
      [0, 18), [18, 30), [30, 45), [45, 60), [60, 200). */
  function IntendedAgeBin(age: int): (b: Option<nat>)
    ensures b.Some? <==> 0 <= age < 200
    ensures b.Some? ==> b.value < 5 && AgeEdges[b.value] <= age < AgeEdges[b.value + 1]
  {
    if age < 0 || age >= 200 then None
    else if age < 18 then Some(0)
    else if age < 30 then Some(1)
    else if age < 45 then Some(2)
    else if age < 60 then Some(3)
    else Some(4)
  }

  /** Every age the intended binning counts lies in the range its label names. */
  lemma IntendedAgeBinMatchesLabels(age: int)
    requires 0 <= age < 200
    ensures IntendedAgeBin(age).Some? && LabelCovers(IntendedAgeBin(age).value, age)
  {
  }

  // ===== /api/map =====

  /** The columns api_map copies into each record, in this order when present. */
  const MapColumnOrder: seq<Column> := [Lat, Lon, CrimeDesc, AreaName]

  /** The columns of `order` the table has, in order. */
  function PresentColumns(order: seq<Column>, columns: set<Column>): (r: seq<Column>)
    ensures forall c :: c in r <==> c in order && c in columns
    ensures IsSubsequence(r, order)
  {
    if order == [] then []
    else
      var rest := PresentColumns(order[1..], columns);
      assert forall c :: c in order <==> c == order[0] || c in order[1..];
      if order[0] in columns then [order[0]] + rest else rest
  }

  lemma {:induction false} PresentColumnsSnoc(order: seq<Column>, c: Column, columns: set<Column>)
    ensures PresentColumns(order + [c], columns) == PresentColumns(order, columns) + (if c in columns then [c] else [])
  {
    if order == [] {
      assert [c][1..] == [];
    } else {
      assert (order + [c])[0] == order[0] && (order + [c])[1..] == order[1..] + [c];
      PresentColumnsSnoc(order[1..], c, columns);
    }
  }

  predicate HasValue(row: Row, c: Column) {
    match c
    case AreaName => row.area.Some?
    case Year => row.year.Some?
    case Month => row.month.Some?
    case Hour => row.hour.Some?
    case CrimeDesc => row.crime.Some?
    case VictimAge => row.victimAge.Some?
    case VictimSex => row.victimSex.Some?
    case Lat => row.lat.Some?
    case Lon => row.lon.Some?
  }

  /** No selected column of the row is NaN (what `filtered[cols].dropna()` keeps). */
  predicate Complete(row: Row, cols: seq<Column>) {
    forall c :: c in cols ==> HasValue(row, c)
  }

  predicate OffOrigin(row: Row) {
    row.lat != Some(0.0) && row.lon != Some(0.0)
  }

  /** A row api_map keeps: no NaN in the selected columns and, when both coordinates
      are selected, neither coordinate zero. */
  predicate Mappable(row: Row, cols: seq<Column>) {
    Complete(row, cols) && (Lat in cols && Lon in cols ==> OffOrigin(row))
  }

  /** `filtered[cols].dropna()` followed by the zero-coordinate filter: every mappable
      row of the filtered table, as often as it occurs there, in table order. */
  function MapCandidates(f: Frame, cols: seq<Column>): (r: seq<Row>)
    ensures forall row :: row in r <==> row in f.rows && Mappable(row, cols)
    ensures forall row :: Count(r, row) == if Mappable(row, cols) then Count(f.rows, row) else 0
    ensures IsSubsequence(r, f.rows)
  {
    var complete := Filter(f.rows, row => Complete(row, cols));
    if Lat in cols && Lon in cols then
      var r := Filter(complete, row => OffOrigin(row));
      SubsequenceTransitive(r, complete, f.rows);
      r
    else complete
  }

  /** One record of the map response. */
  datatype CrimePoint = CrimePoint(lat: Option<real>, lon: Option<real>, crime: string, area: string)

  datatype MapResponse = MapResponse(crimes: seq<CrimePoint>, total: nat)

  /** `int(request.args.get('limit', 500))` raised, or DataFrame.sample was asked for a negative size. */
  datatype MapError = BadLimit

  function ToPoint(row: Row, cols: seq<Column>): CrimePoint {
    CrimePoint(if Lat in cols then row.lat else None,
               if Lon in cols then row.lon else None,
               if CrimeDesc in cols then row.crime.GetOr("") else "",
               if AreaName in cols then row.area.GetOr("") else "")
  }

  /** The records for a sequence of rows. */
  function Points(rows: seq<Row>, cols: seq<Column>): (r: seq<CrimePoint>)
    ensures |r| == |rows|
  {
    if rows == [] then [] else Points(rows[..|rows| - 1], cols) + [ToPoint(rows[|rows| - 1], cols)]
  }

  lemma {:induction false} PointsFromRows(rows: seq<Row>, source: seq<Row>, cols: seq<Column>)
    requires forall row :: row in rows ==> row in source
    ensures forall c :: c in Points(rows, cols) ==> exists row :: row in source && c == ToPoint(row, cols)
  {
    if rows != [] {
      var init := rows[..|rows| - 1];
      assert forall row :: row in init ==> row in rows;
      PointsFromRows(init, source, cols);
      assert rows[|rows| - 1] in rows;
    }
  }

  lemma {:induction false} PointsOffOrigin(rows: seq<Row>, cols: seq<Column>)
    requires Lat in cols && Lon in cols
    requires forall row :: row in rows ==> Complete(row, cols) && OffOrigin(row)
    ensures forall c :: c in Points(rows, cols) ==> c.lat.Some? && c.lat.value != 0.0 && c.lon.Some? && c.lon.value != 0.0
  {
    if rows != [] {
      var init := rows[..|rows| - 1];
      assert forall row :: row in init ==> row in rows;
      PointsOffOrigin(init, cols);
      var last := rows[|rows| - 1];
      assert last in rows;
      assert HasValue(last, Lat) && HasValue(last, Lon);
    }
  }

  /** The limit argument: 500 when absent, None when it is not an integer. */
  function LimitArg(args: Query): Option<int> {
    match Lookup(args, "limit")
    case None => Some(500)
    case Some(s) => ParseInt(s)
  }

  /** A mask `DataFrame.sample(limit)` could stand for: when sampling happens, one
      flag per candidate and exactly `limit` of them set. */
  predicate ValidDraw(candidates: seq<Row>, limit: int, mask: seq<bool>) {
    |candidates| > limit >= 0 ==> |mask| == |candidates| && Count(mask, true) == limit
  }

  /** The loop building `cols`: the map columns the table has, in order. */
  method SelectColumns(columns: set<Column>) returns (cols: seq<Column>)
    ensures cols == PresentColumns(MapColumnOrder, columns)
  {
    cols := [];
    for k := 0 to |MapColumnOrder|
      invariant cols == PresentColumns(MapColumnOrder[..k], columns)
    {
      assert MapColumnOrder[..k + 1] == MapColumnOrder[..k] + [MapColumnOrder[k]];
      PresentColumnsSnoc(MapColumnOrder[..k], MapColumnOrder[k], columns);
      if MapColumnOrder[k] in columns {
        cols := cols + [MapColumnOrder[k]];
      }
    }
    assert MapColumnOrder[..|MapColumnOrder|] == MapColumnOrder;
  }

  /** The loop over `map_data.iterrows()`: one record per row, in order. */
  method Records(rows: seq<Row>, cols: seq<Column>) returns (crimes: seq<CrimePoint>)
    ensures crimes == Points(rows, cols)
  {
    crimes := [];
    for i := 0 to |rows|
      invariant crimes == Points(rows[..i], cols)
    {
      assert rows[..i + 1] == rows[..i] + [rows[i]];
      crimes := crimes + [ToPoint(rows[i], cols)];
    }
    assert rows[..|rows|] == rows;
  }

  /** api_map: at most `limit` plottable filtered rows as records (a random choice of
      them, given as `mask`, when there are more), and the number of filtered rows. */
  method ApiMap(df: Frame, args: Query, mask: seq<bool>) returns (r: Result<MapResponse, MapError>)
    requires LimitArg(args).Some? ==>
      ValidDraw(MapCandidates(Filtered(df, args), PresentColumns(MapColumnOrder, df.columns)), LimitArg(args).value, mask)
    ensures r.Err? <==> LimitArg(args).None? || (LimitArg(args).value < 0 && PresentColumns(MapColumnOrder, df.columns) != [])
    ensures r.Ok? ==> r.value.total == |Filtered(df, args).rows|
    ensures r.Ok? && PresentColumns(MapColumnOrder, df.columns) != [] ==>
      var candidates := MapCandidates(Filtered(df, args), PresentColumns(MapColumnOrder, df.columns));
      |r.value.crimes| == if |candidates| > LimitArg(args).value then LimitArg(args).value else |candidates|
    ensures r.Ok? && PresentColumns(MapColumnOrder, df.columns) == [] ==> r.value.crimes == []
    ensures r.Ok? ==>
      var cols := PresentColumns(MapColumnOrder, df.columns);
      forall c :: c in r.value.crimes ==> exists row :: row in MapCandidates(Filtered(df, args), cols) && c == ToPoint(row, cols)
    ensures r.Ok? && PresentColumns(MapColumnOrder, df.columns) != [] ==>
      var cols := PresentColumns(MapColumnOrder, df.columns);
      var candidates := MapCandidates(Filtered(df, args), cols);
      r.value.crimes == if |candidates| <= LimitArg(args).value then Points(candidates, cols) else Points(Pick(candidates, mask), cols)
    ensures r.Ok? && Lat in df.columns && Lon in df.columns ==> forall c :: c in r.value.crimes ==>
      c.lat.Some? && c.lat.value != 0.0 && c.lon.Some? && c.lon.value != 0.0
  {
    var limit := LimitArg(args);
    if limit.None? {
      return Err(BadLimit);
    }
    var filtered := Filtered(df, args);

    var cols := SelectColumns(filtered.columns);

    if cols == [] {
      return Ok(MapResponse([], |filtered.rows|));
    }

    var mapData := MapCandidates(filtered, cols);
    if |mapData| > limit.value {
      if limit.value < 0 {
        return Err(BadLimit);
      }
      mapData := Pick(mapData, mask);
    }

    var crimes := Records(mapData, cols);
    PointsFromRows(mapData, MapCandidates(filtered, cols), cols);
    if Lat in cols && Lon in cols {
      PointsOffOrigin(mapData, cols);
    }
    return Ok(MapResponse(crimes, |filtered.rows|));
  }
}
