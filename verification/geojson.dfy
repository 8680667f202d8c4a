/**
 * Simplified GeoJSON values as the timeline viewer sees them (RFC 7946):
 * positions (section 3.1.1), Point and LineString geometries (sections 3.1.2
 * and 3.1.4), features with string properties (section 3.2) and feature
 * collections (section 3.3).
 */
module GeoJson {
  import opened Wrappers

  /** A position: longitude first, then latitude. */
  datatype Position = Position(lon: real, lat: real)

  /**
   * The `coordinates` member of a LineString: absent (or `null`), an array of
   * positions, or some other value that is not an array and holds no position.
   */
  datatype Coordinates = Absent | Positions(positions: seq<Position>) | NotAnArray

  /** The geometry of a feature; any geometry type other than Point and LineString is kept only by its name. */
  datatype Geometry =
    | Point(position: Position)
    | LineString(coordinates: Coordinates)
    | OtherGeometry(typeName: string)

  /** A feature: `geometry` is `None` when absent; absent properties are the empty map. */
  datatype Feature = Feature(geometry: Option<Geometry>, properties: map<string, string>)

  /** A feature collection: `features` is `None` when the member is absent or not an array. */
  datatype FeatureCollection = FeatureCollection(features: Option<seq<Feature>>)

  /** `{ type: 'FeatureCollection', features: [] }` */
  const EmptyCollection := FeatureCollection(Some([]))
}
