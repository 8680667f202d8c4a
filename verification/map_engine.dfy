/**
 * The map engine seen only through what the viewer does to it: a registry of
 * geometry sources and styled layers, each known by its id, and the current
 * view. The registration guard of the `load` handler in `ensureMap` is here.
 */
module MapModel {
  import opened Wrappers
  import opened GeoJson

  const TripLines := "trip-lines"
  const TripLinesLayer := "trip-lines-layer"
  const TripPointsLayer := "trip-points-layer"

  /** A GeoJSON source and the features last given to it. */
  datatype Source = Source(id: string, data: seq<Feature>)

  /** How a layer draws its source: as lines, or as circles filtered to Point geometries. */
  datatype LayerKind = LineLayer | PointCircleLayer

  datatype Layer = Layer(id: string, source: string, kind: LayerKind)

  /** Where the view is placed: centred on a position, or fitted to the bounding box of some features. */
  datatype Placement = CentredOn(centre: Position) | FittedTo(data: seq<Feature>)

  /** The view: its placement and its zoom, where `None` is the zoom the last fit chose. */
  datatype View = View(placement: Placement, zoom: Option<int>)

  /** The map is created centred on [139.70, 35.68] at zoom 9. */
  const InitialView := View(CentredOn(Position(139.70, 35.68)), Some(9))

  const TripLinesSource := Source(TripLines, [])
  const LineLayerSpec := Layer(TripLinesLayer, TripLines, LineLayer)
  const PointLayerSpec := Layer(TripPointsLayer, TripLines, PointCircleLayer)

  function SourceId(s: Source): string { s.id }

  function LayerId(l: Layer): string { l.id }

  /** The ids of registry entries, in registration order. */
  function Ids<T>(entries: seq<T>, idOf: T -> string): (ids: seq<string>)
    ensures |ids| == |entries| && forall k | 0 <= k < |entries| :: ids[k] == idOf(entries[k])
  {
    seq(|entries|, k requires 0 <= k < |entries| => idOf(entries[k]))
  }

  /** No id is registered twice. */
  predicate Distinct(ids: seq<string>) {
    forall i, j | 0 <= i < j < |ids| :: ids[i] != ids[j]
  }

  /** How many times an id is registered. */
  function Occurrences(ids: seq<string>, id: string): nat {
    if ids == [] then 0
    else Occurrences(ids[..|ids| - 1], id) + (if ids[|ids| - 1] == id then 1 else 0)
  }

  /** An id list with the id appended unless it is already there. */
  function AddIdIfAbsent(ids: seq<string>, id: string): seq<string> {
    if id in ids then ids else ids + [id]
  }

  /**
   * `if (!map.getSource(id)) map.addSource(...)`, and the same for layers:
   * the entry is appended only when its id is not registered yet, and the
   * entries already there stay in place.
   */
  function AddIfAbsent<T>(entries: seq<T>, e: T, idOf: T -> string): (r: seq<T>)
    ensures Ids(r, idOf) == AddIdIfAbsent(Ids(entries, idOf), idOf(e))
    ensures |r| >= |entries| && r[..|entries|] == entries
  {
    if idOf(e) in Ids(entries, idOf) then entries else entries + [e]
  }

  /** The sources after one run of the `load` handler: `trip-lines` is there, the old sources in place. */
  function LoadedSources(ss: seq<Source>): (r: seq<Source>)
    ensures TripLines in Ids(r, SourceId)
    ensures |r| >= |ss| && r[..|ss|] == ss
  {
    AddIfAbsent(ss, TripLinesSource, SourceId)
  }

  /** The layers after one run of the `load` handler: both trip layers are there, the old layers in place. */
  function LoadedLayers(ls: seq<Layer>): (r: seq<Layer>)
    ensures TripLinesLayer in Ids(r, LayerId) && TripPointsLayer in Ids(r, LayerId)
    ensures |r| >= |ls| && r[..|ls|] == ls
  {
    var ls1 := AddIfAbsent(ls, LineLayerSpec, LayerId);
    var r := AddIfAbsent(ls1, PointLayerSpec, LayerId);
    assert r[..|ls1|][..|ls|] == r[..|ls|];
    r
  }

  /** The registry after n runs of the `load` handler. */
  function LoadRuns(n: nat, ss: seq<Source>, ls: seq<Layer>): (seq<Source>, seq<Layer>) {
    if n == 0 then (ss, ls) else LoadRuns(n - 1, LoadedSources(ss), LoadedLayers(ls))
  }

  /** `getSource(id).setData(data)`: replaces the data of the source with that id, if any. */
  function WithData(ss: seq<Source>, id: string, data: seq<Feature>): (r: seq<Source>)
    ensures Ids(r, SourceId) == Ids(ss, SourceId)
    ensures id !in Ids(ss, SourceId) ==> r == ss
    ensures forall k | 0 <= k < |r| :: r[k].data == (if ss[k].id == id then data else ss[k].data)
  {
    seq(|ss|, k requires 0 <= k < |ss| => if ss[k].id == id then Source(id, data) else ss[k])
  }

  lemma {:induction false} OccurrencesOfDistinct(ids: seq<string>, id: string)
    requires Distinct(ids)
    ensures Occurrences(ids, id) == (if id in ids then 1 else 0)
  {
    if ids != [] {
      var init := ids[..|ids| - 1];
      assert Distinct(init);
      OccurrencesOfDistinct(init, id);
      assert ids == init + [ids[|ids| - 1]];
      if ids[|ids| - 1] == id {
        assert id !in init by {
          forall k | 0 <= k < |init| ensures init[k] != id {
            assert ids[k] != ids[|ids| - 1];
          }
        }
      }
    }
  }

  /**
   * Adding an id only when absent keeps the ids distinct, leaves the id
   * registered exactly once, keeps every earlier entry in place and adds
   * nothing but that id.
   */
  lemma AddIdIfAbsentOnce(ids: seq<string>, id: string)
    requires Distinct(ids)
    ensures Distinct(AddIdIfAbsent(ids, id))
    ensures Occurrences(AddIdIfAbsent(ids, id), id) == 1
    ensures AddIdIfAbsent(ids, id)[..|ids|] == ids
    ensures forall x :: x in AddIdIfAbsent(ids, id) <==> x in ids || x == id
  {
    OccurrencesOfDistinct(AddIdIfAbsent(ids, id), id);
  }

  /**
   * One run of the `load` handler on sources without duplicates leaves them
   * without duplicates, `trip-lines` registered exactly once, the sources
   * already there untouched, and no other id added.
   */
  lemma LoadedSourcesOnce(ss: seq<Source>)
    requires Distinct(Ids(ss, SourceId))
    ensures Distinct(Ids(LoadedSources(ss), SourceId))
    ensures Occurrences(Ids(LoadedSources(ss), SourceId), TripLines) == 1
    ensures LoadedSources(ss)[..|ss|] == ss
    ensures forall x :: x in Ids(LoadedSources(ss), SourceId) <==> x in Ids(ss, SourceId) || x == TripLines
  {
    AddIdIfAbsentOnce(Ids(ss, SourceId), TripLines);
  }

  /**
   * One run of the `load` handler on layers without duplicates leaves them
   * without duplicates, `trip-lines-layer` and `trip-points-layer` registered
   * exactly once each, the layers already there untouched, and no other id added.
   */
  lemma LoadedLayersOnce(ls: seq<Layer>)
    requires Distinct(Ids(ls, LayerId))
    ensures Distinct(Ids(LoadedLayers(ls), LayerId))
    ensures Occurrences(Ids(LoadedLayers(ls), LayerId), TripLinesLayer) == 1
    ensures Occurrences(Ids(LoadedLayers(ls), LayerId), TripPointsLayer) == 1
    ensures LoadedLayers(ls)[..|ls|] == ls
    ensures forall x :: x in Ids(LoadedLayers(ls), LayerId) <==> x in Ids(ls, LayerId) || x == TripLinesLayer || x == TripPointsLayer
  {
    AddTwoIdsOnce(Ids(ls, LayerId), TripLinesLayer, TripPointsLayer);
  }

  lemma AddTwoIdsOnce(ids: seq<string>, a: string, b: string)
    requires Distinct(ids) && a != b
    ensures var r := AddIdIfAbsent(AddIdIfAbsent(ids, a), b);
            Distinct(r) && Occurrences(r, a) == 1 && Occurrences(r, b) == 1
            && forall x :: x in r <==> x in ids || x == a || x == b
  {
    var r1 := AddIdIfAbsent(ids, a);
    var r := AddIdIfAbsent(r1, b);
    AddIdIfAbsentOnce(ids, a);
    AddIdIfAbsentOnce(r1, b);
    assert a in r;
    OccurrencesOfDistinct(r, a);
  }

  /** A second run of the `load` handler changes nothing. */
  lemma LoadIdempotent(ss: seq<Source>, ls: seq<Layer>)
    ensures LoadedSources(LoadedSources(ss)) == LoadedSources(ss)
    ensures LoadedLayers(LoadedLayers(ls)) == LoadedLayers(ls)
  {
    var ls1 := AddIfAbsent(ls, LineLayerSpec, LayerId);
    assert TripLinesLayer in Ids(ls1, LayerId);
  }

  /** Any positive number of runs of the `load` handler leaves the registry of a single run. */
  lemma {:induction false} RepeatedLoads(n: nat, ss: seq<Source>, ls: seq<Layer>)
    requires n >= 1
    ensures LoadRuns(n, ss, ls) == (LoadedSources(ss), LoadedLayers(ls))
  {
    if n > 1 {
      LoadIdempotent(ss, ls);
      RepeatedLoads(n - 1, LoadedSources(ss), LoadedLayers(ls));
    }
  }

  /** The map engine object: its registry of sources and layers, and its view. */
  class MapEngine {
    var sources: seq<Source>
    var layers: seq<Layer>
    var view: View

    /** `new maplibregl.Map({ center: [139.70, 35.68], zoom: 9, ... })` */
    constructor ()
      ensures sources == [] && layers == [] && view == InitialView
    {
      sources := [];
      layers := [];
      view := InitialView;
    }

    /** `getSource(id)` is defined. */
    function HasSource(id: string): (b: bool)
      reads this
      ensures b <==> exists k | 0 <= k < |sources| :: sources[k].id == id
    {
      id in Ids(sources, SourceId)
    }

    /** `getLayer(id)` is defined. */
    function HasLayer(id: string): (b: bool)
      reads this
      ensures b <==> exists k | 0 <= k < |layers| :: layers[k].id == id
    {
      id in Ids(layers, LayerId)
    }

    /** `addSource`: registers a source, whether or not its id is taken. */
    method AddSource(s: Source)
      modifies this`sources
      ensures sources == old(sources) + [s]
    {
      sources := sources + [s];
    }

    /** `addLayer`: registers a layer, whether or not its id is taken. */
    method AddLayer(l: Layer)
      modifies this`layers
      ensures layers == old(layers) + [l]
    {
      layers := layers + [l];
    }

    /** `if (!getSource(id)) addSource(...)` */
    method AddSourceIfAbsent(s: Source)
      modifies this`sources
      ensures sources == AddIfAbsent(old(sources), s, SourceId)
    {
      if !HasSource(s.id) {
        AddSource(s);
      }
    }

    /** `if (!getLayer(id)) addLayer(...)` */
    method AddLayerIfAbsent(l: Layer)
      modifies this`layers
      ensures layers == AddIfAbsent(old(layers), l, LayerId)
    {
      if !HasLayer(l.id) {
        AddLayer(l);
      }
    }

    /** The `load` handler: each managed source and layer is added only when absent. */
    method OnLoad()
      modifies this`sources, this`layers
      ensures sources == LoadedSources(old(sources))
      ensures layers == LoadedLayers(old(layers))
      ensures old(Distinct(Ids(sources, SourceId))) ==> Distinct(Ids(sources, SourceId))
      ensures old(Distinct(Ids(layers, LayerId))) ==> Distinct(Ids(layers, LayerId))
    {
      ghost var ss0, ls0 := sources, layers;
      AddSourceIfAbsent(TripLinesSource);
      AddLayerIfAbsent(LineLayerSpec);
      AddLayerIfAbsent(PointLayerSpec);
      if Distinct(Ids(ss0, SourceId)) {
        LoadedSourcesOnce(ss0);
      }
      if Distinct(Ids(ls0, LayerId)) {
        LoadedLayersOnce(ls0);
      }
    }

    /** `getSource(id).setData(data)` when the source exists. */
    method SetData(id: string, data: seq<Feature>)
      modifies this`sources
      ensures sources == WithData(old(sources), id, data)
    {
      sources := WithData(sources, id, data);
    }

    /** `setCenter(p)`: the view is centred on p and keeps its zoom. */
    method SetCenter(p: Position)
      modifies this`view
      ensures view == View(CentredOn(p), old(view).zoom)
    {
      view := View(CentredOn(p), view.zoom);
    }

    /** `setZoom(z)`: the view keeps its placement and takes zoom z. */
    method SetZoom(z: int)
      modifies this`view
      ensures view == View(old(view).placement, Some(z))
    {
      view := View(view.placement, Some(z));
    }

    /** `fitBounds` to the bounding box of the features, which also picks the zoom. */
    method FitBounds(data: seq<Feature>)
      modifies this`view
      ensures view == View(FittedTo(data), None)
    {
      view := View(FittedTo(data), None);
    }
  }
}
