/**
 * The viewer's module-level state and its entry points: the lazily created
 * map (`ensureMap`), drawing a feature collection (`renderGeoJSON`) and one
 * load of a day's timeline (`loadTimeline`) once the payload has arrived.
 */
module Viewer {
  import opened Wrappers
  import opened GeoJson
  import opened Render
  import opened Summary
  import opened MapModel

  /**
   * The parts of a timeline payload the viewer reads. A field is `None` when
   * it is missing or falsy; `stays`, `visits` and `diary` are never read.
   */
  datatype Payload = Payload(trips: Option<TripsValue>, geojson: Option<FeatureCollection>)

  /** `json.trips || []`: a present value is kept, a missing one becomes the empty list. */
  function DefaultTrips(p: Payload): (r: TripsValue)
    ensures p.trips.Some? ==> r == p.trips.value
    ensures p.trips.None? ==> r == TripList([])
  {
    p.trips.GetOr(TripList([]))
  }

  /**
   * `json.geojson || { type: 'FeatureCollection', features: [] }`: a present
   * value is kept, a missing one becomes a collection the empty guard stops.
   */
  function DefaultGeoJson(p: Payload): (r: FeatureCollection)
    ensures p.geojson.Some? ==> r == p.geojson.value
    ensures p.geojson.None? ==> IsEmptyInput(Some(r)) && r.features == Some([])
  {
    p.geojson.GetOr(EmptyCollection)
  }

  /** The features `renderGeoJSON` hands to `setData` on the `trip-lines` source. */
  function DrawnData(fc: Option<FeatureCollection>): (d: seq<Feature>)
    ensures IsEmptyInput(fc) ==> d == []
    ensures !IsEmptyInput(fc) ==>
              var fs := fc.value.features.value;
              |d| == |fs| + 2 * CountQualifying(fs) && d[..|fs|] == fs && d[|fs|..] == Endpoints(fs)
  {
    if IsEmptyInput(fc) then [] else Merged(fc.value.features.value)
  }

  /** The view after drawing, and whether drawing finished without an error. */
  datatype Fit = Fit(view: View, ok: bool)

  /**
   * The view change of `renderGeoJSON`. Empty input leaves the view alone.
   * Otherwise, when a bounding box can be computed, the view is fitted to the
   * merged features. When none can be computed, the fallback applies:
   * - no LineString at all: the view is left alone;
   * - the first LineString has a middle vertex: the view is centred on it at zoom 11;
   * - that LineString has no `coordinates`: reading their `length` fails;
   * - it has coordinates but no position at the middle index: `setCenter`
   *   receives `undefined`. Whether the map engine rejects that is the
   *   parameter `setCenterRejectsUndefined`. If it does not reject it, the
   *   placement stays and the zoom becomes 11.
   */
  function FitView(before: View, fc: Option<FeatureCollection>, bboxSucceeds: bool,
                   setCenterRejectsUndefined: bool): (r: Fit)
    ensures IsEmptyInput(fc) ==> r == Fit(before, true)
    ensures !IsEmptyInput(fc) && bboxSucceeds ==>
              r == Fit(View(FittedTo(Merged(fc.value.features.value)), None), true)
    ensures !IsEmptyInput(fc) && !bboxSucceeds ==>
              var fs := fc.value.features.value;
              var c := FallbackCentre(fs);
              (c.KeepView? ==> r == Fit(before, true) && forall j | 0 <= j < |fs| :: !IsLine(fs[j])) &&
              (c.CentreOn? ==> r == Fit(View(CentredOn(c.centre), Some(11)), true)) &&
              (c.NoCoordinates? ==> r == Fit(before, false)) &&
              (c.NoMiddleVertex? ==>
                 r == if setCenterRejectsUndefined then Fit(before, false)
                      else Fit(View(before.placement, Some(11)), true))
  {
    if IsEmptyInput(fc) then Fit(before, true)
    else if bboxSucceeds then Fit(View(FittedTo(Merged(fc.value.features.value)), None), true)
    else match FallbackCentre(fc.value.features.value)
      case KeepView => Fit(before, true)
      case CentreOn(p) => Fit(View(CentredOn(p), Some(11)), true)
      case NoCoordinates => Fit(before, false)
      case NoMiddleVertex =>
        if setCenterRejectsUndefined then Fit(before, false) else Fit(View(before.placement, Some(11)), true)
  }

  /**
   * Everything `renderGeoJSON` does once it holds the map: the empty guard,
   * the derived points, `setData` on `trip-lines` when that source exists,
   * and the view change. `bboxSucceeds` says which branch of the try/catch
   * around the bounding box is taken.
   */
  method Draw(m: MapEngine, fc: Option<FeatureCollection>, bboxSucceeds: bool, setCenterRejectsUndefined: bool)
    returns (ok: bool)
    modifies m
    ensures m.layers == old(m.layers)
    ensures m.sources == WithData(old(m.sources), TripLines, DrawnData(fc))
    ensures Fit(m.view, ok) == FitView(old(m.view), fc, bboxSucceeds, setCenterRejectsUndefined)
  {
    if fc.None? || fc.value.features.None? || fc.value.features.value == [] {
      if m.HasSource(TripLines) {
        m.SetData(TripLines, []);
      }
      return true;
    }
    var features := fc.value.features.value;
    var points := CollectEndpoints(features);
    var merged := features + points;
    if m.HasSource(TripLines) {
      m.SetData(TripLines, merged);
    }
    if bboxSucceeds {
      m.FitBounds(merged);
      ok := true;
    } else {
      var first := FirstLineIndex(features);
      if first.None? {
        ok := true;
      } else {
        match features[first.value].geometry.value.coordinates
        case Absent =>
          // `coords.length` on a missing value raises out of the catch block
          ok := false;
        case NotAnArray =>
          ok := CentreOnUndefined(m, setCenterRejectsUndefined);
        case Positions(coords) =>
          if coords == [] {
            ok := CentreOnUndefined(m, setCenterRejectsUndefined);
          } else {
            m.SetCenter(coords[|coords| / 2]);
            m.SetZoom(11);
            ok := true;
          }
      }
    }
  }

  /** `setCenter(undefined)` then `setZoom(11)`, when the map engine lets the first call pass. */
  method CentreOnUndefined(m: MapEngine, setCenterRejectsUndefined: bool) returns (ok: bool)
    modifies m`view
    ensures ok == !setCenterRejectsUndefined
    ensures m.view == if ok then View(old(m.view).placement, Some(11)) else old(m.view)
  {
    if setCenterRejectsUndefined {
      return false;
    }
    m.SetZoom(11);
    ok := true;
  }

  /** The script's state: the module-level `map` variable. */
  class Viewer {
    var engine: MapEngine?

    constructor ()
      ensures engine == null
    {
      engine := null;
    }

    /** `ensureMap`: the map is created on the first call and returned as it is afterwards. */
    method EnsureMap() returns (m: MapEngine)
      modifies this`engine
      ensures engine == m
      ensures old(engine) != null ==> m == old(engine)
      ensures old(engine) == null ==> fresh(m) && m.sources == [] && m.layers == [] && m.view == InitialView
    {
      if engine != null {
        return engine;
      }
      m := new MapEngine();
      engine := m;
    }

    /**
     * `renderGeoJSON`: ensures the map, then draws. Before the map's `load`
     * handler has run there is no `trip-lines` source, and the data is dropped.
     */
    method RenderGeoJSON(fc: Option<FeatureCollection>, bboxSucceeds: bool, setCenterRejectsUndefined: bool)
      returns (ok: bool)
      modifies this`engine, engine
      ensures engine != null
      ensures old(engine) != null ==> engine == old(engine)
      ensures old(engine) == null ==> fresh(engine)
      ensures engine.layers == (if old(engine) == null then [] else old(engine.layers))
      ensures engine.sources == WithData(if old(engine) == null then [] else old(engine.sources), TripLines, DrawnData(fc))
      ensures Fit(engine.view, ok) == FitView(if old(engine) == null then InitialView else old(engine.view), fc,
                                              bboxSucceeds, setCenterRejectsUndefined)
    {
      var m := EnsureMap();
      ok := Draw(m, fc, bboxSucceeds, setCenterRejectsUndefined);
    }

    /**
     * `loadTimeline` after the payload has arrived: the summary of the trips
     * (missing trips read as `[]`), then the drawing of the collection (a
     * missing one read as the empty collection).
     */
    method LoadTimeline(payload: Payload, bboxSucceeds: bool, setCenterRejectsUndefined: bool)
      returns (summary: TripSummary, ok: bool)
      modifies this`engine, engine
      ensures summary == RenderSummary(DefaultTrips(payload))
      ensures engine != null
      ensures old(engine) != null ==> engine == old(engine)
      ensures old(engine) == null ==> fresh(engine)
      ensures engine.layers == (if old(engine) == null then [] else old(engine.layers))
      ensures engine.sources == WithData(if old(engine) == null then [] else old(engine.sources), TripLines,
                                         DrawnData(Some(DefaultGeoJson(payload))))
      ensures Fit(engine.view, ok) == FitView(if old(engine) == null then InitialView else old(engine.view),
                                              Some(DefaultGeoJson(payload)), bboxSucceeds, setCenterRejectsUndefined)
    {
      summary := RenderSummary(DefaultTrips(payload));
      ok := RenderGeoJSON(Some(DefaultGeoJson(payload)), bboxSucceeds, setCenterRejectsUndefined);
    }
  }

  /**
   * A payload without `trips` shows zero trips and zero distance; one without
   * `geojson` empties the `trip-lines` source and leaves the view as it was.
   */
  lemma MissingFieldsDefault(p: Payload, before: View, bboxSucceeds: bool, setCenterRejectsUndefined: bool)
    ensures p.trips.None? ==> RenderSummary(DefaultTrips(p)) == TripSummary(0, 0.0)
    ensures p.geojson.None? ==>
              DrawnData(Some(DefaultGeoJson(p))) == [] &&
              FitView(before, Some(DefaultGeoJson(p)), bboxSucceeds, setCenterRejectsUndefined) == Fit(before, true)
  {
  }
}
