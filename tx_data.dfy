/** Records shared by the transmission-line stages: line features, their geometry, the rows the
    partitioner writes to `tx_lines.csv`, and the entries written to `error.log`. */
module TxData {

  /** The geometry type names (`geom_type`) the pipeline tells apart. */
  datatype GeomType =
    | Point | LineString | LinearRing | Polygon
    | MultiPoint | MultiLineString | MultiPolygon | GeometryCollection

  /** A coordinate pair: x is the longitude, y the latitude once reprojected. */
  datatype Vertex = Vertex(x: real, y: real)

  /** A geometry reduced to what the pipeline reads of it: its type tag and, for a LineString,
      its vertices in order (`coords`). Containment between geometries is not computed here;
      the stages that need it take it as a parameter. */
  datatype Geometry = Geometry(geomType: GeomType, coords: seq<Vertex>)

  /** A transmission-line feature with the attributes the pipeline carries forward. */
  datatype TxLine = TxLine(id: int, shapeLeng: real, voltage: real, owner: string, geometry: Geometry)

  /** A row of `tx_lines.csv`: a line stamped with its state and its region. */
  datatype Row = Row(line: TxLine, state: string, region: string)

  /** One entry of `error.log`. */
  datatype LogEntry =
    | Started(time: string)
    | RegionHeader(region: string)
    | StateCount(state: string, records: nat)
    | SkippedRow(id: int, index: nat, geomType: GeomType)
}
