/** The state the dashboard script keeps between refreshes (static/script.js): the
    four chart handles, the map's marker layer and viewport, and the summary
    figures. Charting and mapping libraries are represented by the state they hold:
    a chart by its identity and data, the map by its markers and fitted bounds. */
module Panels {
  import opened Wrappers
  import opened Client

  /** The four chart panels, the keys of the global `charts` object. */
  datatype Panel = AreaPanel | TimePanel | TypePanel | VictimPanel

  /** A chart instance: `id` numbers instances in creation order. */
  datatype Chart = Chart(id: nat, labels: seq<string>, data: seq<int>)

  /** Instance `id` is held by some panel. */
  ghost predicate IsHeld(charts: map<Panel, Chart>, id: nat) {
    exists p :: p in charts && charts[p].id == id
  }

  /** No instance is leaked and none is used after being destroyed: each of the
      `created` instances is held by exactly one panel or has been destroyed, never both. */
  ghost predicate Accounted(charts: map<Panel, Chart>, created: nat, destroyed: set<nat>) {
    (forall p :: p in charts ==> charts[p].id < created && charts[p].id !in destroyed) &&
    (forall p, q :: p in charts && q in charts && p != q ==> charts[p].id != charts[q].id) &&
    (forall id: nat :: id < created ==> id in destroyed || IsHeld(charts, id)) &&
    (forall id :: id in destroyed ==> id < created)
  }

  /** Destroying a panel's instance and storing a fresh one keeps every instance
      accounted for. */
  lemma ReplaceAccounted(charts: map<Panel, Chart>, created: nat, destroyed: set<nat>, p: Panel, c: Chart)
    requires Accounted(charts, created, destroyed) && c.id == created
    ensures Accounted(charts[p := c], created + 1, destroyed + (if p in charts then {charts[p].id} else {}))
  {
    var destroyed' := destroyed + (if p in charts then {charts[p].id} else {});
    ReplaceKeepsHeldLive(charts, created, destroyed, p, c);
    ReplaceKeepsDistinct(charts, created, destroyed, p, c);
    ReplaceKeepsCovered(charts, created, destroyed, p, c);
    assert forall id :: id in destroyed' ==> id < created + 1;
  }

  lemma ReplaceKeepsHeldLive(charts: map<Panel, Chart>, created: nat, destroyed: set<nat>, p: Panel, c: Chart)
    requires Accounted(charts, created, destroyed) && c.id == created
    ensures var charts', destroyed' := charts[p := c], destroyed + (if p in charts then {charts[p].id} else {});
      forall q :: q in charts' ==> charts'[q].id < created + 1 && charts'[q].id !in destroyed'
  {
    var charts', destroyed' := charts[p := c], destroyed + (if p in charts then {charts[p].id} else {});
    forall q | q in charts' ensures charts'[q].id < created + 1 && charts'[q].id !in destroyed' {
      if q != p {
        assert charts'[q] == charts[q];
        assert p in charts ==> charts[q].id != charts[p].id;
      } else {
        assert created !in destroyed;
      }
    }
  }

  lemma ReplaceKeepsDistinct(charts: map<Panel, Chart>, created: nat, destroyed: set<nat>, p: Panel, c: Chart)
    requires Accounted(charts, created, destroyed) && c.id == created
    ensures var charts' := charts[p := c];
      forall q, q' :: q in charts' && q' in charts' && q != q' ==> charts'[q].id != charts'[q'].id
  {
    var charts' := charts[p := c];
    forall q, q' | q in charts' && q' in charts' && q != q' ensures charts'[q].id != charts'[q'].id {
      if q != p && q' != p {
        assert charts'[q] == charts[q] && charts'[q'] == charts[q'];
      } else if q == p {
        assert charts'[q'] == charts[q'];
      } else {
        assert charts'[q] == charts[q];
      }
    }
  }

  lemma ReplaceKeepsCovered(charts: map<Panel, Chart>, created: nat, destroyed: set<nat>, p: Panel, c: Chart)
    requires Accounted(charts, created, destroyed) && c.id == created
    ensures var charts', destroyed' := charts[p := c], destroyed + (if p in charts then {charts[p].id} else {});
      forall id: nat :: id < created + 1 ==> id in destroyed' || IsHeld(charts', id)
  {
    var charts', destroyed' := charts[p := c], destroyed + (if p in charts then {charts[p].id} else {});
    forall id: nat | id < created + 1 ensures id in destroyed' || IsHeld(charts', id) {
      if id == created {
        assert charts'[p].id == id;
      } else if id !in destroyed' {
        assert IsHeld(charts, id);
        var q :| q in charts && charts[q].id == id;
        assert q != p;
        assert charts'[q].id == id;
      }
    }
  }

  /** The global `charts` object together with the history of chart instances. */
  class ChartRegistry {
    /** The handle each panel holds; a panel missing from the map holds null. */
    var charts: map<Panel, Chart>
    /** The number of chart instances created so far. */
    var created: nat
    /** The instances destroyed so far: history kept for the proof only. */
    ghost var destroyed: set<nat>

    ghost predicate Valid()
      reads this
    {
      Accounted(charts, created, destroyed)
    }

    /** Page load: every handle null, nothing created yet. */
    constructor()
      ensures Valid()
      ensures charts == map[] && created == 0 && destroyed == {}
    {
      charts := map[];
      created := 0;
      destroyed := {};
    }

    /** One panel's render step (updateAreaChart, updateTimeChart, updateTypeChart,
        updateVictimChart once the response is in): without its canvas the panel
        returns and keeps its chart; otherwise the old instance is destroyed and a new
        one with the response's labels and data takes its place. Other panels are not
        touched. */
    method Render(p: Panel, canvasPresent: bool, labels: seq<string>, data: seq<int>)
      requires Valid()
      modifies this
      ensures Valid()
      ensures !canvasPresent ==> charts == old(charts) && created == old(created) && destroyed == old(destroyed)
      ensures canvasPresent ==> charts == old(charts)[p := Chart(old(created), labels, data)]
      ensures canvasPresent ==> created == old(created) + 1
      ensures canvasPresent ==> destroyed == old(destroyed) + (if p in old(charts) then {old(charts)[p].id} else {})
    {
      if !canvasPresent {
        return;
      }
      ReplaceAccounted(charts, created, destroyed, p, Chart(created, labels, data));
      if p in charts {
        destroyed := destroyed + {charts[p].id};
      }
      charts := charts[p := Chart(created, labels, data)];
      created := created + 1;
    }
  }

  /** After any sequence of renders, every live instance is held by exactly one panel,
      so no panel leaks an instance it replaced. */
  lemma HeldPerPanel(r: ChartRegistry, id: nat)
    requires r.Valid() && id < r.created && id !in r.destroyed
    ensures exists p :: p in r.charts && r.charts[p].id == id
    ensures forall p, q :: p in r.charts && q in r.charts && r.charts[p].id == id && r.charts[q].id == id ==> p == q
  {
    assert IsHeld(r.charts, id);
  }

  // ===== the map =====

  /** The kind of layer the markers are added to: `L.layerGroup()` has no bounds of
      its own, `L.featureGroup()` has. */
  datatype LayerKind = LayerGroup | FeatureGroup

  /** A latitude/longitude box. */
  datatype Bounds = Bounds(south: real, west: real, north: real, east: real)

  predicate Contains(b: Bounds, m: Marker) {
    b.south <= m.lat <= b.north && b.west <= m.lon <= b.east
  }

  function Min(a: real, b: real): real { if a <= b then a else b }
  function Max(a: real, b: real): real { if a >= b then a else b }

  /** The bounds of a non-empty set of markers: the smallest box holding them all. */
  function BoundsOf(ms: seq<Marker>): (b: Bounds)
    requires ms != []
    ensures forall m :: m in ms ==> Contains(b, m)
  {
    if |ms| == 1 then Bounds(ms[0].lat, ms[0].lon, ms[0].lat, ms[0].lon)
    else
      var rest := BoundsOf(ms[1..]);
      assert forall m :: m in ms ==> m == ms[0] || m in ms[1..];
      Bounds(Min(ms[0].lat, rest.south), Min(ms[0].lon, rest.west),
             Max(ms[0].lat, rest.north), Max(ms[0].lon, rest.east))
  }

  /** Each side of `BoundsOf(ms)` is attained by some marker, so no smaller box holds
      them all. */
  lemma {:induction false} BoundsOfTight(ms: seq<Marker>)
    requires ms != []
    ensures exists m :: m in ms && m.lat == BoundsOf(ms).south
    ensures exists m :: m in ms && m.lat == BoundsOf(ms).north
    ensures exists m :: m in ms && m.lon == BoundsOf(ms).west
    ensures exists m :: m in ms && m.lon == BoundsOf(ms).east
  {
    if |ms| > 1 {
      BoundsOfTight(ms[1..]);
      assert forall m :: m in ms[1..] ==> m in ms;
      assert ms[0] in ms;
    } else {
      assert ms[0] in ms;
    }
  }

  /** What asking the layer for its bounds and fitting the map to them gives. */
  datatype FitOutcome = Throws | NoFit | Fitted(bounds: Bounds)

  /** `layer.getBounds()` then `fitBounds` when the bounds are valid: a plain layer
      group has no getBounds, so the call throws; a feature group without markers has
      empty, invalid bounds. */
  function Fit(kind: LayerKind, markers: seq<Marker>): FitOutcome {
    if kind == LayerGroup then Throws
    else if markers == [] then NoFit
    else Fitted(BoundsOf(markers))
  }

  /** The markers of one more record: the earlier ones, then its own if it is plottable. */
  lemma MarkersStep(crimes: seq<MapRecord>, i: nat)
    requires i < |crimes|
    ensures Markers(crimes[..i + 1]) == Markers(crimes[..i]) + if Plottable(crimes[i]) then [MarkerOf(crimes[i])] else []
  {
    assert crimes[..i + 1][..i] == crimes[..i];
  }

  /** Where the viewport is after a response: fitted to the layer's bounds when the
      response held records and the fit succeeded, where it was otherwise. */
  function Refit(kind: LayerKind, viewport: Option<Bounds>, crimes: seq<MapRecord>): Option<Bounds> {
    var outcome := Fit(kind, Markers(crimes));
    if |crimes| > 0 && outcome.Fitted? then Some(outcome.bounds) else viewport
  }

  /** The viewport after a series of responses, starting from `viewport`. */
  function ViewportAfter(kind: LayerKind, viewport: Option<Bounds>, responses: seq<seq<MapRecord>>): Option<Bounds>
    decreases |responses|
  {
    if responses == [] then viewport
    else ViewportAfter(kind, Refit(kind, viewport, responses[0]), responses[1..])
  }

  /** The count line under the map: records shown of records matching. */
  datatype MapCount = MapCount(shown: nat, total: int)

  /** The map panel: the marker layer, the viewport and the count line. */
  class MapView {
    /** The layer initMap creates. */
    const layer: LayerKind
    /** The markers on the layer. */
    var markers: seq<Marker>
    /** The bounds the map was last fitted to; None while it shows its initial view. */
    var viewport: Option<Bounds>
    /** The count line; None until first written. */
    var countText: Option<MapCount>

    /** initMap: an empty layer of the given kind on the initial view. */
    constructor(kind: LayerKind)
      ensures layer == kind && markers == [] && viewport == None && countText == None
    {
      layer := kind;
      markers := [];
      viewport := None;
      countText := None;
    }

    /** updateMap once the response is in: clear the layer, write the count line (when
        its element exists), add one marker per record with both coordinates, then, if
        the response held any record, fit the map to the layer's bounds. `failed` is
        true when that step threw; what was done before it stays done. */
    method Update(response: MapPayload, countPresent: bool) returns (failed: bool)
      modifies this
      ensures markers == Markers(response.crimes)
      ensures countText == if countPresent then Some(MapCount(|response.crimes|, response.total.GetOr(0))) else old(countText)
      ensures failed <==> |response.crimes| > 0 && layer == LayerGroup
      ensures viewport == Refit(layer, old(viewport), response.crimes)
      ensures layer == LayerGroup ==> viewport == old(viewport)
    {
      markers := [];
      if countPresent {
        countText := Some(MapCount(|response.crimes|, response.total.GetOr(0)));
      }
      var crimes := response.crimes;
      for i := 0 to |crimes|
        invariant markers == Markers(crimes[..i])
        invariant countText == if countPresent then Some(MapCount(|response.crimes|, response.total.GetOr(0))) else old(countText)
        invariant viewport == old(viewport)
      {
        MarkersStep(crimes, i);
        if Plottable(crimes[i]) {
          markers := markers + [MarkerOf(crimes[i])];
        }
      }
      assert crimes[..|crimes|] == crimes;
      failed := false;
      if |crimes| > 0 {
        var outcome := Fit(layer, markers);
        if outcome.Throws? {
          failed := true;
        } else if outcome.Fitted? {
          viewport := Some(outcome.bounds);
        }
      }
    }
  }

  /** As written, the markers go on a plain layer group: whenever a response holds a
      record the fit step throws, so whatever responses arrive, the map never moves
      from the view it started in, however many markers it shows. */
  lemma {:induction false} LayerGroupKeepsInitialView(viewport: Option<Bounds>, responses: seq<seq<MapRecord>>)
    ensures ViewportAfter(LayerGroup, viewport, responses) == viewport
    decreases |responses|
  {
    if responses != [] {
      assert Refit(LayerGroup, viewport, responses[0]) == viewport;
      LayerGroupKeepsInitialView(viewport, responses[1..]);
    }
  }

  /** With a feature group, the map is fitted exactly when some record is plottable, to
      the smallest box holding every marker. */
  lemma FeatureGroupFitsMarkers(crimes: seq<MapRecord>)
    ensures Fit(FeatureGroup, Markers(crimes)).Fitted? <==> exists c :: c in crimes && Plottable(c)
    ensures Fit(FeatureGroup, Markers(crimes)).Fitted? ==>
      forall c :: c in crimes && Plottable(c) ==> Contains(Fit(FeatureGroup, Markers(crimes)).bounds, MarkerOf(c))
  {
    MarkersOfPlottable(crimes);
    if exists c :: c in crimes && Plottable(c) {
      var c :| c in crimes && Plottable(c);
      assert MarkerOf(c) in Markers(crimes);
    }
  }

  // ===== the summary figures =====

  /** The summary panel's three text elements. */
  class SummaryPanel {
    var totalText: int
    var averageText: real
    /** The data-source line; None until first written. */
    var sourceText: Option<string>

    constructor()
      ensures totalText == 0 && averageText == 0.0 && sourceText == None
    {
      totalText := 0;
      averageText := 0.0;
      sourceText := None;
    }

    /** updateSummary once the response is in: both figures are always written; the
        data-source line only when the payload names a source and the element exists. */
    method Update(p: SummaryPayload, sourcePresent: bool)
      modifies this
      ensures totalText == DisplayedTotal(p) && averageText == DisplayedAverage(p)
      ensures sourceText == if DataSourceLabel(p).Some? && sourcePresent then DataSourceLabel(p) else old(sourceText)
    {
      totalText := DisplayedTotal(p);
      averageText := DisplayedAverage(p);
      var ds := DataSourceLabel(p);
      if ds.Some? && sourcePresent {
        sourceText := ds;
      }
    }
  }
}
