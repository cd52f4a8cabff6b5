/**
 * The records the core passes around: GeoJSON geometries and features, the
 * style records of visualizer-state.ts, the logical entity a visualizer
 * receives, and the renderer's Cartesian position.
 */
module GeoTypes {
  import opened Wrappers

  /** A GeoJSON position: longitude, latitude and optionally height, in degrees and metres. */
  type Position = seq<real>

  /** A renderer (earth-fixed) Cartesian position. */
  datatype Cartesian3 = Cartesian3(x: real, y: real, z: real)

  /** The `type` names the core dispatches on. */
  const KnownTypeNames: set<string> := {"Point", "LineString", "Polygon", "MultiPoint", "MultiLineString", "MultiPolygon"}

  /** Any other `type` name (`GeometryCollection`, a misspelling, ...). */
  type OtherTypeName = t: string | t !in KnownTypeNames witness ""

  /** A GeoJSON geometry, tagged by its `type`; `Unknown` carries any other type name. */
  datatype Geometry =
    | Point(point: Position)
    | LineString(line: seq<Position>)
    | Polygon(rings: seq<seq<Position>>)
    | MultiPoint(points: seq<Position>)
    | MultiLineString(lines: seq<seq<Position>>)
    | MultiPolygon(polygons: seq<seq<seq<Position>>>)
    | Unknown(typeName: OtherTypeName)

  /** The `type` string of a geometry. */
  function TypeName(g: Geometry): string {
    match g
    case Point(_) => "Point"
    case LineString(_) => "LineString"
    case Polygon(_) => "Polygon"
    case MultiPoint(_) => "MultiPoint"
    case MultiLineString(_) => "MultiLineString"
    case MultiPolygon(_) => "MultiPolygon"
    case Unknown(t) => t
  }

  datatype MarkerSize = Small | Medium | Large

  /** `IVisualizerStyle`: every option may be absent. */
  datatype StyleSpec = StyleSpec(
    stroke: Option<string>,
    strokeWidth: Option<real>,
    strokeDasharray: Option<real>,
    strokeOpacity: Option<real>,
    fill: Option<string>,
    fillOpacity: Option<real>,
    markerColor: Option<string>,
    markerSize: Option<MarkerSize>)

  const EmptySpec := StyleSpec(None, None, None, None, None, None, None, None)

  /** `IVisualizerStateStyle`, with the parts the core reads. */
  datatype StateStyle = StateStyle(opacity: real, initial: Option<StyleSpec>)

  /** An annotation label (the `label` key; `label` is a Dafny keyword, so fields holding one are named `textLabel`). */
  datatype Label = Label(text: string, geometry: Option<Geometry>)

  /**
   * A feature's `properties`: the keys the core reads, each possibly absent,
   * and every other key kept opaquely in `others`.
   */
  datatype Properties = Properties(
    id: Option<string>,
    style: Option<StateStyle>,
    showMeasures: Option<bool>,
    showArea: Option<bool>,
    textLabel: Option<Label>,
    icon: Option<string>,
    undeletable: Option<bool>,
    labelSize: Option<real>,
    labelTranslateOn: Option<bool>,
    featureJson: Option<Feature>,
    others: map<string, string>)

  const NoProperties := Properties(None, None, None, None, None, None, None, None, None, None, map[])

  /** A GeoJSON feature; `geometry` is `None` when the feature carries none. */
  datatype Feature = Feature(geometry: Option<Geometry>, properties: Properties)

  datatype FeatureCollection = FeatureCollection(features: seq<Feature>)

  /** `IVisualizerEntity`: a logical entity handed to a visualizer. */
  datatype VisualizerEntity = VisualizerEntity(
    id: Option<string>,
    featureJson: Feature,
    style: Option<StateStyle>,
    showMeasures: bool,
    showArea: bool,
    textLabel: Label,
    icon: string,
    undeletable: bool,
    labelSize: real,
    labelTranslateOn: bool)
}
