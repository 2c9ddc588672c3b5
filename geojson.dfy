/** The GeoJSON shapes (RFC 7946, section 3.1) that the map data and the
    route builder pass around. */
module GeoJson {

  /** A position, longitude first as in section 3.1.1 of RFC 7946. */
  datatype Position = Position(longitude: real, latitude: real)

  /** The seven geometry types of section 3.1 of RFC 7946. */
  datatype Geometry =
    | PointGeometry(coordinates: Position)
    | MultiPoint(points: seq<Position>)
    | LineString(line: seq<Position>)
    | MultiLineString(lines: seq<seq<Position>>)
    | Polygon(rings: seq<seq<Position>>)
    | MultiPolygon(polygons: seq<seq<seq<Position>>>)
    | GeometryCollection(geometries: seq<Geometry>)

  /** The `type` member of a geometry, as the error message shows it. */
  function TypeName(g: Geometry): string
  {
    match g
    case PointGeometry(_) => "Point"
    case MultiPoint(_) => "MultiPoint"
    case LineString(_) => "LineString"
    case MultiLineString(_) => "MultiLineString"
    case Polygon(_) => "Polygon"
    case MultiPolygon(_) => "MultiPolygon"
    case GeometryCollection(_) => "GeometryCollection"
  }
}
