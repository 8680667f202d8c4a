/**
 * The data handling inside `renderGeoJSON`: the empty-input guard, the start
 * and end Points derived from every LineString, the merged collection, and
 * the fallback map centre used when no bounding box can be computed.
 */
module Render {
  import opened Wrappers
  import opened GeoJson

  /**
   * The empty-input guard: no collection, no `features` array, or an empty one.
   * Input that passes the guard has at least one feature to draw.
   */
  predicate IsEmptyInput(fc: Option<FeatureCollection>): (b: bool)
    ensures !b ==> fc.Some? && fc.value.features.Some? && |fc.value.features.value| >= 1
  {
    fc.None? || fc.value.features.None? || fc.value.features.value == []
  }

  /** The feature's geometry type is `LineString`. */
  predicate IsLine(f: Feature) {
    f.geometry.Some? && f.geometry.value.LineString?
  }

  /**
   * A LineString whose coordinates are an array of more than one position:
   * its first and last vertex exist and are different entries.
   */
  predicate Qualifies(f: Feature): (b: bool)
    ensures b ==> IsLine(f) && f.geometry.value.coordinates.Positions?
                  && 0 < |f.geometry.value.coordinates.positions| - 1
  {
    IsLine(f) && f.geometry.value.coordinates.Positions? && |f.geometry.value.coordinates.positions| > 1
  }

  function Vertices(f: Feature): seq<Position>
    requires Qualifies(f)
  {
    f.geometry.value.coordinates.positions
  }

  /** `properties[key] || fallback`: an absent or empty label falls back. */
  function LabelOr(properties: map<string, string>, key: string, fallback: string): (r: string)
    ensures key in properties && properties[key] != "" ==> r == properties[key]
    ensures key !in properties || properties[key] == "" ==> r == fallback
    ensures fallback != "" ==> r != ""
  {
    if key in properties && properties[key] != "" then properties[key] else fallback
  }

  /** The Point placed on the first vertex of a qualifying line. */
  function StartPoint(f: Feature): Feature
    requires Qualifies(f)
  {
    Feature(Some(Point(Vertices(f)[0])),
            map["kind" := "start", "label" := LabelOr(f.properties, "from_label", "start")])
  }

  /** The Point placed on the last vertex of a qualifying line. */
  function EndPoint(f: Feature): Feature
    requires Qualifies(f)
  {
    Feature(Some(Point(Vertices(f)[|Vertices(f)| - 1])),
            map["kind" := "end", "label" := LabelOr(f.properties, "to_label", "end")])
  }

  /** What one feature adds to the derived points. */
  function Contribution(f: Feature): seq<Feature> {
    if Qualifies(f) then [StartPoint(f), EndPoint(f)] else []
  }

  /** The derived points of a feature list, in feature order: all Points of kind `start` or `end`. */
  function Endpoints(fs: seq<Feature>): (r: seq<Feature>)
    ensures forall k | 0 <= k < |r| ::
              r[k].geometry.Some? && r[k].geometry.value.Point?
              && "kind" in r[k].properties && r[k].properties["kind"] in {"start", "end"}
  {
    if fs == [] then [] else Endpoints(fs[..|fs| - 1]) + Contribution(fs[|fs| - 1])
  }

  /** The number of qualifying lines in a feature list. */
  function CountQualifying(fs: seq<Feature>): nat {
    if fs == [] then 0
    else CountQualifying(fs[..|fs| - 1]) + (if Qualifies(fs[|fs| - 1]) then 1 else 0)
  }

  /** The loop that builds `pointFeatures` by pushing two Points per qualifying line. */
  method CollectEndpoints(features: seq<Feature>) returns (points: seq<Feature>)
    ensures points == Endpoints(features)
  {
    points := [];
    for i := 0 to |features|
      invariant points == Endpoints(features[..i])
    {
      var f := features[i];
      assert features[..i + 1][..i] == features[..i];
      if f.geometry.Some? && f.geometry.value.LineString? && f.geometry.value.coordinates.Positions?
         && |f.geometry.value.coordinates.positions| > 1
      {
        var coords := f.geometry.value.coordinates.positions;
        var from := coords[0];
        var to := coords[|coords| - 1];
        points := points + [Feature(Some(Point(from)),
                                    map["kind" := "start", "label" := LabelOr(f.properties, "from_label", "start")])];
        points := points + [Feature(Some(Point(to)),
                                    map["kind" := "end", "label" := LabelOr(f.properties, "to_label", "end")])];
      }
    }
    assert features[..|features|] == features;
  }

  /** The merged feature list: the original features followed by the derived points. */
  function Merged(fs: seq<Feature>): (r: seq<Feature>)
    ensures |r| == |fs| + 2 * CountQualifying(fs)
    ensures r[..|fs|] == fs && r[|fs|..] == Endpoints(fs)
  {
    EndpointsLength(fs);
    fs + Endpoints(fs)
  }

  /** Every qualifying line adds exactly two points, every other feature none. */
  lemma {:induction false} EndpointsLength(fs: seq<Feature>)
    ensures |Endpoints(fs)| == 2 * CountQualifying(fs)
  {
    if fs != [] {
      EndpointsLength(fs[..|fs| - 1]);
    }
  }

  /** Derivation distributes over concatenation: each feature contributes independently. */
  lemma {:induction false} EndpointsAppend(a: seq<Feature>, b: seq<Feature>)
    ensures Endpoints(a + b) == Endpoints(a) + Endpoints(b)
  {
    if b == [] {
      assert a + b == a;
    } else {
      var c := b[..|b| - 1];
      assert (a + b)[..|a + b| - 1] == a + c;
      assert (a + b)[|a + b| - 1] == b[|b| - 1];
      EndpointsAppend(a, c);
    }
  }

  lemma EndpointsSingle(f: Feature)
    ensures Endpoints([f]) == Contribution(f)
  {
  }

  /**
   * The qualifying line at index i yields, at position 2 * (qualifying lines
   * before it), a `start` Point on its first vertex labelled `from_label` (or
   * 'start'), immediately followed by an `end` Point on its last vertex
   * labelled `to_label` (or 'end').
   */
  lemma {:induction false} EndpointsAt(fs: seq<Feature>, i: nat)
    requires i < |fs| && Qualifies(fs[i])
    ensures var k := 2 * CountQualifying(fs[..i]);
            var coords := fs[i].geometry.value.coordinates.positions;
            k + 1 < |Endpoints(fs)| &&
            Endpoints(fs)[k] == Feature(Some(Point(coords[0])),
                                        map["kind" := "start", "label" := LabelOr(fs[i].properties, "from_label", "start")]) &&
            Endpoints(fs)[k + 1] == Feature(Some(Point(coords[|coords| - 1])),
                                            map["kind" := "end", "label" := LabelOr(fs[i].properties, "to_label", "end")])
  {
    var rest := fs[i + 1..];
    assert fs == fs[..i] + ([fs[i]] + rest);
    EndpointsAppend(fs[..i], [fs[i]] + rest);
    EndpointsAppend([fs[i]], rest);
    EndpointsSingle(fs[i]);
    EndpointsLength(fs[..i]);
  }

  lemma {:induction false} CountQualifyingMonotone(fs: seq<Feature>, a: nat, b: nat)
    requires a <= b <= |fs|
    ensures CountQualifying(fs[..a]) <= CountQualifying(fs[..b])
  {
    if a < b {
      assert fs[..b][..b - 1] == fs[..b - 1];
      CountQualifyingMonotone(fs, a, b - 1);
    }
  }

  /**
   * For qualifying lines i < j, the end Point of line i comes before the
   * start Point of line j in the derived points.
   */
  lemma EndpointsInLineOrder(fs: seq<Feature>, i: nat, j: nat)
    requires i < j < |fs| && Qualifies(fs[i]) && Qualifies(fs[j])
    ensures exists ki, kj | 0 <= ki < kj < |Endpoints(fs)| ::
              Endpoints(fs)[ki] == EndPoint(fs[i]) && Endpoints(fs)[kj] == StartPoint(fs[j])
  {
    assert fs[..i + 1][..i] == fs[..i];
    CountQualifyingMonotone(fs, i + 1, j);
    EndpointsAt(fs, i);
    EndpointsAt(fs, j);
    var ki, kj := 2 * CountQualifying(fs[..i]) + 1, 2 * CountQualifying(fs[..j]);
    assert Endpoints(fs)[ki] == EndPoint(fs[i]) && Endpoints(fs)[kj] == StartPoint(fs[j]);
  }

  /** The point is the start or end Point of some qualifying line of the list. */
  ghost predicate DerivedFrom(fs: seq<Feature>, p: Feature) {
    exists i | 0 <= i < |fs| :: Qualifies(fs[i]) && (p == StartPoint(fs[i]) || p == EndPoint(fs[i]))
  }

  /** Every derived point is the start or end Point of some qualifying line. */
  lemma {:induction false} EndpointsFromLines(fs: seq<Feature>)
    ensures forall j | 0 <= j < |Endpoints(fs)| :: DerivedFrom(fs, Endpoints(fs)[j])
  {
    if fs != [] {
      var init, last := fs[..|fs| - 1], |fs| - 1;
      EndpointsFromLines(init);
      assert Endpoints(fs) == Endpoints(init) + Contribution(fs[last]);
      forall j | 0 <= j < |Endpoints(fs)|
        ensures DerivedFrom(fs, Endpoints(fs)[j])
      {
        if j < |Endpoints(init)| {
          assert DerivedFrom(init, Endpoints(init)[j]);
          var i :| 0 <= i < |init| && Qualifies(init[i])
                   && (Endpoints(init)[j] == StartPoint(init[i]) || Endpoints(init)[j] == EndPoint(init[i]));
          assert fs[i] == init[i];
          assert Endpoints(fs)[j] == Endpoints(init)[j];
        } else {
          assert Qualifies(fs[last]);
          assert Endpoints(fs)[j] == StartPoint(fs[last]) || Endpoints(fs)[j] == EndPoint(fs[last]);
        }
      }
    }
  }

  /** `fc.features.find(f => f.geometry?.type === 'LineString')`, as an index. */
  function FirstLineIndex(fs: seq<Feature>): (r: Option<nat>)
    ensures r.Some? ==> r.value < |fs| && IsLine(fs[r.value])
                        && forall j | 0 <= j < r.value :: !IsLine(fs[j])
    ensures r.None? ==> forall j | 0 <= j < |fs| :: !IsLine(fs[j])
  {
    if fs == [] then None
    else if IsLine(fs[0]) then Some(0)
    else match FirstLineIndex(fs[1..])
      case None => None
      case Some(i) => Some(i + 1)
  }

  /**
   * The outcome of the fallback centring: leave the view (no LineString at
   * all), centre on a vertex, find no `coordinates` on the first LineString
   * (reading its `length` raises an error), or find coordinates with no
   * position at the middle index (an empty array, or a value that is not an
   * array), so that `setCenter` receives `undefined`.
   */
  datatype CentreChoice = KeepView | CentreOn(centre: Position) | NoCoordinates | NoMiddleVertex

  /** The first LineString feature, when there is one, is at index i. */
  ghost predicate FirstLineAt(fs: seq<Feature>, i: int) {
    0 <= i < |fs| && IsLine(fs[i]) && forall j | 0 <= j < i :: !IsLine(fs[j])
  }

  /** The middle vertex, index floor(n / 2), of the first LineString feature. */
  function FallbackCentre(fs: seq<Feature>): (c: CentreChoice)
    ensures c.KeepView? <==> forall j | 0 <= j < |fs| :: !IsLine(fs[j])
    ensures c.CentreOn? ==>
              exists i | FirstLineAt(fs, i) ::
                var coords := fs[i].geometry.value.coordinates;
                coords.Positions? && 0 <= |coords.positions| / 2 < |coords.positions|
                && c.centre == coords.positions[|coords.positions| / 2]
    ensures c.NoCoordinates? ==>
              exists i | FirstLineAt(fs, i) :: fs[i].geometry.value.coordinates.Absent?
    ensures c.NoMiddleVertex? ==>
              exists i | FirstLineAt(fs, i) ::
                var coords := fs[i].geometry.value.coordinates;
                coords.NotAnArray? || coords == Positions([])
  {
    match FirstLineIndex(fs)
    case None => KeepView
    case Some(i) =>
      assert FirstLineAt(fs, i);
      match fs[i].geometry.value.coordinates
      case Absent => NoCoordinates
      case NotAnArray => NoMiddleVertex
      case Positions(ps) => if |ps| >= 1 then CentreOn(ps[|ps| / 2]) else NoMiddleVertex
  }
}
