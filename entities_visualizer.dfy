/**
 * imagery-cesium/plugins/entities-visualizer/base-entities-visualizer.ts:
 * logical entities placed into the renderer's named data sources, one
 * source per geometry type, named `<dataSourceGuid>_<type>`.
 *
 * The renderer's data-source collection is modelled as a map from a name to
 * every source of that name (`getByName` may find none, one or several).
 * Its asynchronous `add` is assumed to register the source at once, so a
 * later entity of the same batch finds it.
 */
module EntitiesVisualizer {
  import opened Wrappers
  import opened HexColor
  import opened GeoTypes
  import opened GeoToCesium
  import StyleHelper

  type Color = StyleHelper.Color

  /** A polygon outline with its holes, as pushed by `getPolygon`. */
  datatype Hierarchy = Hierarchy(positions: seq<Cartesian3>, holes: seq<seq<Cartesian3>>)

  /** The graphic a rendered entity carries. */
  datatype Graphic =
    | Billboard(position: Cartesian3, image: string)
    | PointGraphic(position: Cartesian3, color: Color)
    | Polyline(positions: seq<Cartesian3>, width: Option<real>, material: Color)
    | PolygonGraphic(hierarchy: Hierarchy, material: Color, outline: bool, outlineColor: Color, outlineWidth: Option<real>)

  /** A renderer entity; an absent id is replaced by a generated one in the renderer. */
  datatype RenderedEntity = RenderedEntity(id: Option<string>, graphic: Graphic)

  /** A `CustomDataSource`: its entities in insertion order and its `show` flag. */
  datatype DataSource = DataSource(entities: seq<RenderedEntity>, show: bool)

  /** The viewer's data sources, by name. */
  type Viewer = map<string, seq<DataSource>>

  /** The visualizer's tracked source names (`dataSources`) together with the viewer. */
  datatype Scene = Scene(tracked: set<string>, viewer: Viewer)

  // ---------------------------------------------------------------------
  // Building renderer entities
  // ---------------------------------------------------------------------

  /** `merge({}, styles.initial)`: the initial options, or none when the style or its `initial` is absent. */
  function InitialOf(style: Option<StateStyle>): (spec: StyleSpec)
    ensures style.Some? && style.value.initial.Some? ==> spec == style.value.initial.value
    ensures style.None? || style.value.initial.None? ==> spec == EmptySpec
  {
    if style.Some? && style.value.initial.Some? then style.value.initial.value else EmptySpec
  }

  /**
   * This visualizer's own `getColor`: `"RED"` when no colour is given; a
   * `#rrggbbaa` colour is split into its first seven characters and an alpha
   * of `aa` over 255; any other string is handed over whole and keeps the
   * alpha the renderer parses from it.
   */
  function GetColor(color: Option<string>): (c: Color)
    ensures color.None? ==> c == StyleHelper.Color("RED", None)
    ensures color.Some? && IsRrggbbaa(color.value) ==>
      c == StyleHelper.Color(color.value[..7], Some(Num(HexValue(color.value[7..]) as real / 255.0)))
    ensures color.Some? && !IsRrggbbaa(color.value) ==> c == StyleHelper.Color(color.value, None)
  {
    var s := if color.Some? then color.value else "RED";
    if IsRrggbbaa(s) then
      RrggbbaaAlpha(s);
      StyleHelper.Color(s[..7], Some(AlphaSuffix(s)))
    else
      StyleHelper.Color(s, None)
  }

  /** `getBillboard`: the icon image at the converted point. */
  function GetBillboard(fromDegrees: FromDegrees, id: Option<string>, point: Position, icon: string): (r: RenderedEntity)
    ensures r.id == id && r.graphic.Billboard?
    ensures r.graphic.position == CoordinatesToCartesian(fromDegrees, point) && r.graphic.image == icon
  {
    RenderedEntity(id, Billboard(CoordinatesToCartesian(fromDegrees, point), icon))
  }

  /** `getPoint`: a point graphic coloured by `marker-color`. */
  function GetPoint(fromDegrees: FromDegrees, id: Option<string>, point: Position, style: Option<StateStyle>): (r: RenderedEntity)
    ensures r.id == id && r.graphic.PointGraphic?
    ensures r.graphic.position == CoordinatesToCartesian(fromDegrees, point)
    ensures style.Some? && style.value.initial.Some? ==> r.graphic.color == GetColor(style.value.initial.value.markerColor)
    ensures style.None? || style.value.initial.None? ==> r.graphic.color == StyleHelper.Color("RED", None)
  {
    RenderedEntity(id, PointGraphic(CoordinatesToCartesian(fromDegrees, point), GetColor(InitialOf(style).markerColor)))
  }

  /** What `getPolyline` builds: the converted line, `stroke-width` as width, the `stroke` colour as material. */
  function PolylineOf(fromDegrees: FromDegrees, id: Option<string>, line: seq<Position>, style: Option<StateStyle>): RenderedEntity {
    var s := InitialOf(style);
    RenderedEntity(id, Polyline(ConvertAll(fromDegrees, line), s.strokeWidth, GetColor(s.stroke)))
  }

  /**
   * What `getPolygon` builds: ring 0 is the outline and rings 1.. are the
   * holes, in order. Without any ring the source reads `undefined.length`
   * inside the promise callback and nothing is added: `None`.
   */
  function PolygonOf(fromDegrees: FromDegrees, id: Option<string>, rings: seq<seq<Position>>, style: Option<StateStyle>)
    : (r: Option<RenderedEntity>)
    ensures r.None? <==> rings == []
    ensures r.Some? ==> r.value.id == id && r.value.graphic.PolygonGraphic?
    ensures r.Some? ==>
      var h := r.value.graphic.hierarchy;
      && h.positions == ConvertAll(fromDegrees, rings[0])
      && |h.holes| == |rings| - 1
      && forall i :: 0 <= i < |h.holes| ==> h.holes[i] == ConvertAll(fromDegrees, rings[i + 1])
    ensures r.Some? ==> r.value.graphic.outline
  {
    if rings == [] then None
    else
      var s := InitialOf(style);
      var holes := seq(|rings| - 1, i requires 0 <= i < |rings| - 1 => ConvertAll(fromDegrees, rings[i + 1]));
      Some(RenderedEntity(id, PolygonGraphic(Hierarchy(ConvertAll(fromDegrees, rings[0]), holes),
        GetColor(s.fill), true, GetColor(s.stroke), s.strokeWidth)))
  }

  /** `getPolyline`. */
  method GetPolyline(fromDegrees: FromDegrees, id: Option<string>, line: seq<Position>, style: Option<StateStyle>)
    returns (r: RenderedEntity)
    ensures r == PolylineOf(fromDegrees, id, line, style)
  {
    var s := InitialOf(style);
    var lineColor := GetColor(s.stroke);
    var positions := MultiLineToCartesian(fromDegrees, line);
    r := RenderedEntity(id, Polyline(positions, s.strokeWidth, lineColor));
  }

  /** `getPolygon`: the outline from ring 0, then a loop pushing each further ring as a hole. */
  method GetPolygon(fromDegrees: FromDegrees, id: Option<string>, rings: seq<seq<Position>>, style: Option<StateStyle>)
    returns (r: RenderedEntity)
    requires rings != []
    ensures Some(r) == PolygonOf(fromDegrees, id, rings, style)
  {
    var s := InitialOf(style);
    var lineColor := GetColor(s.stroke);
    var fillColor := GetColor(s.fill);
    var outline := PolygonCoordinatesToCartesian(fromDegrees, rings[0]);
    var holes: seq<seq<Cartesian3>> := [];
    for i := 1 to |rings|
      invariant |holes| == i - 1
      invariant forall j :: 0 <= j < i - 1 ==> holes[j] == ConvertAll(fromDegrees, rings[j + 1])
    {
      var hole := PolygonCoordinatesToCartesian(fromDegrees, rings[i]);
      holes := holes + [hole];
    }
    assert holes == seq(|rings| - 1, i requires 0 <= i < |rings| - 1 => ConvertAll(fromDegrees, rings[i + 1]));
    r := RenderedEntity(id, PolygonGraphic(Hierarchy(outline, holes), fillColor, true, lineColor, s.strokeWidth));
  }

  /**
   * The renderer entity `addOrUpdateEntities` adds for a logical entity:
   * a billboard for a Point with a non-empty icon, else a point graphic; a
   * polyline for a LineString; a polygon for a Polygon with a ring; nothing
   * for multi-part or unknown geometries.
   */
  function EntityFor(fromDegrees: FromDegrees, e: VisualizerEntity): (r: Option<RenderedEntity>)
    requires e.featureJson.geometry.Some?
    ensures r.Some? ==> r.value.id == e.id
    ensures r.Some? ==> TypeName(e.featureJson.geometry.value) in {"Point", "LineString", "Polygon"}
    ensures e.featureJson.geometry.value.Point? ==> r.Some? && (r.value.graphic.Billboard? <==> e.icon != "")
    ensures e.featureJson.geometry.value.Point? && e.icon != "" ==>
      r.value.graphic == Billboard(CoordinatesToCartesian(fromDegrees, e.featureJson.geometry.value.point), e.icon)
    ensures e.featureJson.geometry.value.Point? && e.icon == "" ==>
      r == Some(GetPoint(fromDegrees, e.id, e.featureJson.geometry.value.point, e.style))
    ensures e.featureJson.geometry.value.LineString? ==> r.Some? && r.value.graphic.Polyline?
    ensures e.featureJson.geometry.value.LineString? ==>
      r == Some(PolylineOf(fromDegrees, e.id, e.featureJson.geometry.value.line, e.style))
    ensures e.featureJson.geometry.value.Polygon? ==> (r.Some? <==> e.featureJson.geometry.value.rings != [])
    ensures e.featureJson.geometry.value.Polygon? ==>
      r == PolygonOf(fromDegrees, e.id, e.featureJson.geometry.value.rings, e.style)
  {
    match e.featureJson.geometry.value
    case Point(c) =>
      Some(if e.icon != "" then GetBillboard(fromDegrees, e.id, c, e.icon) else GetPoint(fromDegrees, e.id, c, e.style))
    case LineString(cs) => Some(PolylineOf(fromDegrees, e.id, cs, e.style))
    case Polygon(rings) => PolygonOf(fromDegrees, e.id, rings, e.style)
    case _ => None
  }

  // ---------------------------------------------------------------------
  // The scene as values
  // ---------------------------------------------------------------------

  /** `` `${dataSourceGuid}_${type}` `` */
  function DataSourceName(guid: string, typeName: string): string {
    guid + "_" + typeName
  }

  /** `dataSources.getByName(name)`. */
  function GetByName(viewer: Viewer, name: string): seq<DataSource> {
    if name in viewer then viewer[name] else []
  }

  /**
   * `getOrCreateDataSource`: when the viewer has no source of that name, a
   * new empty, shown source is added and the name tracked; otherwise the
   * first existing one is reused and nothing changes.
   */
  function GetOrCreate(s: Scene, name: string): (r: Scene)
    ensures |GetByName(r.viewer, name)| >= 1
    ensures r.tracked == if |GetByName(s.viewer, name)| == 0 then s.tracked + {name} else s.tracked
    ensures |GetByName(s.viewer, name)| > 0 ==> r == s
    ensures |GetByName(s.viewer, name)| == 0 ==>
      && GetByName(r.viewer, name) == [DataSource([], true)]
      && r.viewer.Keys == s.viewer.Keys + {name}
      && forall n :: n in s.viewer && n != name ==> r.viewer[n] == s.viewer[n]
  {
    if |GetByName(s.viewer, name)| == 0 then Scene(s.tracked + {name}, s.viewer[name := [DataSource([], true)]])
    else s
  }

  /** Whether a list holds an entity with the given (present) id. */
  predicate HasId(entities: seq<RenderedEntity>, id: Option<string>) {
    id.Some? && exists j :: 0 <= j < |entities| && entities[j].id == id
  }

  /**
   * `dataSource.entities.add(x)` on the first source of that name. The
   * renderer refuses an id it already holds; the error is raised inside the
   * promise callback and lost, so nothing changes.
   */
  function AddEntity(viewer: Viewer, name: string, x: RenderedEntity): Viewer
    requires |GetByName(viewer, name)| >= 1
  {
    var ds := viewer[name][0];
    if HasId(ds.entities, x.id) then viewer
    else viewer[name := [ds.(entities := ds.entities + [x])] + viewer[name][1..]]
  }

  /** Whether a geometry is one `addOrUpdateEntities` gives a data source to. */
  predicate HasSource(g: Geometry) {
    g.Point? || g.LineString? || g.Polygon?
  }

  /**
   * `after` keeps every source `before` has, with its `show` flag, and at
   * most appends entities to the first source of a name.
   */
  predicate Extends(before: Viewer, after: Viewer) {
    forall n :: n in before && |before[n]| >= 1 ==>
      && n in after && |after[n]| == |before[n]|
      && after[n][1..] == before[n][1..]
      && after[n][0].show == before[n][0].show
      && before[n][0].entities <= after[n][0].entities
  }

  /** One entity of `addOrUpdateEntities`. */
  function AddStep(guid: string, fromDegrees: FromDegrees, s: Scene, e: VisualizerEntity): (r: Scene)
    requires e.featureJson.geometry.Some?
    ensures s.tracked <= r.tracked <= s.tracked + {DataSourceName(guid, TypeName(e.featureJson.geometry.value))}
    ensures s.viewer.Keys <= r.viewer.Keys
    ensures r.viewer.Keys - s.viewer.Keys <= r.tracked
  {
    var g := e.featureJson.geometry.value;
    if !HasSource(g) then s
    else
      var name := DataSourceName(guid, TypeName(g));
      var s1 := GetOrCreate(s, name);
      match EntityFor(fromDegrees, e)
      case None => s1
      case Some(x) => s1.(viewer := AddEntity(s1.viewer, name, x))
  }

  /**
   * `addOrUpdateEntities` over a batch in which every entity has a
   * geometry. No tracked name and no viewer source is ever dropped, and
   * every source the batch creates is tracked.
   */
  function AddAll(guid: string, fromDegrees: FromDegrees, s: Scene, es: seq<VisualizerEntity>): (r: Scene)
    requires forall i :: 0 <= i < |es| ==> es[i].featureJson.geometry.Some?
    ensures s.tracked <= r.tracked
    ensures s.viewer.Keys <= r.viewer.Keys
    ensures r.viewer.Keys - s.viewer.Keys <= r.tracked
  {
    if es == [] then s
    else AddStep(guid, fromDegrees, AddAll(guid, fromDegrees, s, es[..|es| - 1]), es[|es| - 1])
  }

  /**
   * How many entities of a batch are processed: up to the first one without
   * a geometry, whose `featureJson.geometry.type` throws and ends the batch.
   */
  function Processed(es: seq<VisualizerEntity>): (n: nat)
    ensures n <= |es|
    ensures forall i :: 0 <= i < n ==> es[i].featureJson.geometry.Some?
    ensures n < |es| ==> es[n].featureJson.geometry.None?
  {
    if es == [] || es[0].featureJson.geometry.None? then 0 else 1 + Processed(es[1..])
  }

  /**
   * The entities of a batch argument that get added: none when the argument
   * is `null` or `undefined` (`logicalEntities.forEach` throws at once),
   * otherwise those before the first entity without a geometry.
   */
  function Added(batch: Option<seq<VisualizerEntity>>): (es: seq<VisualizerEntity>)
    ensures batch.None? ==> es == []
    ensures batch.Some? ==> es == batch.value[..Processed(batch.value)]
    ensures forall i :: 0 <= i < |es| ==> es[i].featureJson.geometry.Some?
  {
    if batch.None? then [] else batch.value[..Processed(batch.value)]
  }

  /** Whether `addOrUpdateEntities(batch)` returns instead of throwing. */
  predicate Completes(batch: Option<seq<VisualizerEntity>>) {
    batch.Some? && Processed(batch.value) == |batch.value|
  }

  /** What `clearEntities`, `removeEntity` and `setVisibility` do to one source. */
  datatype SourceUpdate = RemoveAll | RemoveById(id: string) | SetShow(show: bool)

  /** The entities without the given id, in order (`removeById`). */
  function WithoutId(entities: seq<RenderedEntity>, id: string): (r: seq<RenderedEntity>)
    ensures |r| <= |entities|
    ensures forall i :: 0 <= i < |r| ==> r[i].id != Some(id)
  {
    if entities == [] then []
    else if entities[0].id == Some(id) then WithoutId(entities[1..], id)
    else [entities[0]] + WithoutId(entities[1..], id)
  }

  function Apply(u: SourceUpdate, ds: DataSource): DataSource {
    match u
    case RemoveAll => ds.(entities := [])
    case RemoveById(id) => ds.(entities := WithoutId(ds.entities, id))
    case SetShow(b) => ds.(show := b)
  }

  /**
   * The shared loop of `clearEntities`, `removeEntity` and `setVisibility`:
   * for every tracked name that the viewer resolves to exactly one source,
   * update that source; everything else is left alone.
   */
  function UpdateTracked(viewer: Viewer, tracked: set<string>, u: SourceUpdate): (r: Viewer)
    ensures r.Keys == viewer.Keys
    ensures forall n :: n in viewer ==> |r[n]| == |viewer[n]|
  {
    map n | n in viewer :: if n in tracked && |viewer[n]| == 1 then [Apply(u, viewer[n][0])] else viewer[n]
  }

  // ---------------------------------------------------------------------
  // Properties of the scene operations
  // ---------------------------------------------------------------------

  /** Different geometry types never share a data source: the name determines the type. */
  lemma DataSourceNamesDistinct(guid: string, a: string, b: string)
    requires DataSourceName(guid, a) == DataSourceName(guid, b)
    ensures a == b
  {
    var n := |guid| + 1;
    assert DataSourceName(guid, a)[n..] == a;
    assert DataSourceName(guid, b)[n..] == b;
  }

  /**
   * One entity changes at most the data source named after its geometry
   * type; every other name keeps exactly what it had.
   */
  lemma AddStepTouchesOwnSource(guid: string, fromDegrees: FromDegrees, s: Scene, e: VisualizerEntity, n: string)
    requires e.featureJson.geometry.Some?
    requires n != DataSourceName(guid, TypeName(e.featureJson.geometry.value))
    ensures GetByName(AddStep(guid, fromDegrees, s, e).viewer, n) == GetByName(s.viewer, n)
    ensures n in AddStep(guid, fromDegrees, s, e).tracked <==> n in s.tracked
  {
  }

  /** Multi-part and unknown geometries add nothing and create no source. */
  lemma UnsupportedGeometryIsNoOp(guid: string, fromDegrees: FromDegrees, s: Scene, e: VisualizerEntity)
    requires e.featureJson.geometry.Some? && !HasSource(e.featureJson.geometry.value)
    ensures AddStep(guid, fromDegrees, s, e) == s
  {
  }

  /**
   * Adding a Point, LineString or Polygon entity leaves its type's source
   * present; the entity is appended to it unless that source already holds
   * its id or, for a polygon, it has no ring.
   */
  lemma AddStepAppends(guid: string, fromDegrees: FromDegrees, s: Scene, e: VisualizerEntity)
    requires e.featureJson.geometry.Some? && HasSource(e.featureJson.geometry.value)
    ensures var name := DataSourceName(guid, TypeName(e.featureJson.geometry.value));
      var before := GetByName(GetOrCreate(s, name).viewer, name)[0];
      var after := AddStep(guid, fromDegrees, s, e).viewer;
      && name in after && |after[name]| == |GetByName(GetOrCreate(s, name).viewer, name)|
      && (EntityFor(fromDegrees, e).Some? && !HasId(before.entities, e.id) ==>
           after[name][0].entities == before.entities + [EntityFor(fromDegrees, e).value])
      && (EntityFor(fromDegrees, e).None? || HasId(before.entities, e.id) ==>
           after[name][0] == before)
  {
  }

  lemma ExtendsTransitive(a: Viewer, b: Viewer, c: Viewer)
    requires Extends(a, b) && Extends(b, c)
    ensures Extends(a, c)
  {
  }

  /** One entity only appends to existing sources: none is dropped, reordered or hidden. */
  lemma AddStepExtends(guid: string, fromDegrees: FromDegrees, s: Scene, e: VisualizerEntity)
    requires e.featureJson.geometry.Some?
    ensures Extends(s.viewer, AddStep(guid, fromDegrees, s, e).viewer)
  {
  }

  /**
   * A batch only appends: every source present before keeps its place, its
   * `show` flag and its entities, which stay a prefix of its new list.
   */
  lemma {:induction false} AddAllExtends(guid: string, fromDegrees: FromDegrees, s: Scene, es: seq<VisualizerEntity>)
    requires forall i :: 0 <= i < |es| ==> es[i].featureJson.geometry.Some?
    ensures Extends(s.viewer, AddAll(guid, fromDegrees, s, es).viewer)
  {
    if es != [] {
      var mid := AddAll(guid, fromDegrees, s, es[..|es| - 1]);
      AddAllExtends(guid, fromDegrees, s, es[..|es| - 1]);
      AddStepExtends(guid, fromDegrees, mid, es[|es| - 1]);
      ExtendsTransitive(s.viewer, mid.viewer, AddStep(guid, fromDegrees, mid, es[|es| - 1]).viewer);
    }
  }

  /** Every name the visualizer starts tracking is `<guid>_<type>` of a geometry in the batch. */
  lemma {:induction false} AddAllTracksOwnNames(guid: string, fromDegrees: FromDegrees, s: Scene, es: seq<VisualizerEntity>, n: string)
    requires forall i :: 0 <= i < |es| ==> es[i].featureJson.geometry.Some?
    requires n in AddAll(guid, fromDegrees, s, es).tracked - s.tracked
    ensures exists i :: 0 <= i < |es| && HasSource(es[i].featureJson.geometry.value)
                        && n == DataSourceName(guid, TypeName(es[i].featureJson.geometry.value))
  {
    if es != [] {
      var prefix := es[..|es| - 1];
      var mid := AddAll(guid, fromDegrees, s, prefix);
      if n in mid.tracked - s.tracked {
        AddAllTracksOwnNames(guid, fromDegrees, s, prefix, n);
        var i :| 0 <= i < |prefix| && HasSource(prefix[i].featureJson.geometry.value)
                 && n == DataSourceName(guid, TypeName(prefix[i].featureJson.geometry.value));
        assert es[i] == prefix[i];
      } else {
        assert n in AddStep(guid, fromDegrees, mid, es[|es| - 1]).tracked - mid.tracked;
      }
    }
  }

  /** `removeById` drops exactly the entities with that id. */
  lemma {:induction false} WithoutIdContents(entities: seq<RenderedEntity>, id: string, x: RenderedEntity)
    ensures x in WithoutId(entities, id) <==> x in entities && x.id != Some(id)
  {
    if entities != [] {
      WithoutIdContents(entities[1..], id, x);
      assert entities == [entities[0]] + entities[1..];
    }
  }

  /**
   * `removeById` works piece by piece: the survivors of a concatenation are
   * the survivors of each part, so the kept entities stay in their order.
   */
  lemma {:induction false} WithoutIdAppend(a: seq<RenderedEntity>, b: seq<RenderedEntity>, id: string)
    ensures WithoutId(a + b, id) == WithoutId(a, id) + WithoutId(b, id)
  {
    if a == [] {
      assert a + b == b;
    } else {
      assert (a + b)[0] == a[0];
      assert (a + b)[1..] == a[1..] + b;
      WithoutIdAppend(a[1..], b, id);
    }
  }

  /** Removing an id no entity carries changes nothing. */
  lemma {:induction false} WithoutUnknownId(entities: seq<RenderedEntity>, id: string)
    requires forall j :: 0 <= j < |entities| ==> entities[j].id != Some(id)
    ensures WithoutId(entities, id) == entities
  {
    if entities != [] {
      WithoutUnknownId(entities[1..], id);
    }
  }

  /**
   * `clearEntities` empties every tracked source the viewer resolves to one
   * instance and leaves every other source, and every name, as it was.
   */
  lemma ClearEmptiesTracked(viewer: Viewer, tracked: set<string>, n: string)
    requires n in viewer
    ensures var r := UpdateTracked(viewer, tracked, RemoveAll);
      && n in r
      && (n in tracked && |viewer[n]| == 1 ==> r[n] == [viewer[n][0].(entities := [])])
      && (n !in tracked || |viewer[n]| != 1 ==> r[n] == viewer[n])
  {
  }

  /** `setVisibility(b)` sets `show` on the tracked single sources and changes no source's entities. */
  lemma VisibilityKeepsEntities(viewer: Viewer, tracked: set<string>, b: bool, n: string)
    requires n in viewer
    ensures var r := UpdateTracked(viewer, tracked, SetShow(b));
      && |r[n]| == |viewer[n]|
      && (forall k :: 0 <= k < |r[n]| ==> r[n][k].entities == viewer[n][k].entities)
      && (n in tracked && |viewer[n]| == 1 ==> r[n][0].show == b)
  {
  }

  /**
   * `removeEntity(id)` removes that id, and only that id, from the tracked
   * single sources; an id no source holds changes nothing.
   */
  lemma RemoveEntityOnlyThatId(viewer: Viewer, tracked: set<string>, id: string, n: string, x: RenderedEntity)
    requires n in viewer && n in tracked && |viewer[n]| == 1
    ensures var r := UpdateTracked(viewer, tracked, RemoveById(id));
      x in r[n][0].entities <==> x in viewer[n][0].entities && x.id != Some(id)
  {
    WithoutIdContents(viewer[n][0].entities, id, x);
  }

  // ---------------------------------------------------------------------
  // The visualizer
  // ---------------------------------------------------------------------

  /** `BaseEntitiesVisualizer`, after `onInit` has drawn its guid. */
  class BaseEntitiesVisualizer {
    const dataSourceGuid: string
    /** The renderer's `Cartesian3.fromDegrees`. */
    const fromDegrees: FromDegrees
    /** The names of the data sources this visualizer created. */
    var dataSources: set<string>
    /** The renderer's data-source collection. */
    var viewer: Viewer

    function CurrentScene(): Scene
      reads this
    {
      Scene(dataSources, viewer)
    }

    constructor (dataSourceGuid: string, fromDegrees: FromDegrees, viewer: Viewer)
      ensures this.dataSourceGuid == dataSourceGuid && this.fromDegrees == fromDegrees
      ensures dataSources == {} && this.viewer == viewer
    {
      this.dataSourceGuid := dataSourceGuid;
      this.fromDegrees := fromDegrees;
      dataSources := {};
      this.viewer := viewer;
    }

    /** `getOrCreateDataSource(type)`: the name of the source used for that geometry type. */
    method GetOrCreateDataSource(typeName: string) returns (name: string)
      modifies this
      ensures name == DataSourceName(dataSourceGuid, typeName)
      ensures CurrentScene() == GetOrCreate(old(CurrentScene()), name)
    {
      name := dataSourceGuid + "_" + typeName;
      var ds := GetByName(viewer, name);
      if |ds| == 0 {
        dataSources := dataSources + {name};
        viewer := viewer[name := [DataSource([], true)]];
      }
    }

    /** `dataSource.entities.add(x)` on the source `getOrCreateDataSource` resolved to. */
    method AddToDataSource(name: string, x: RenderedEntity)
      requires |GetByName(viewer, name)| >= 1
      modifies this
      ensures dataSources == old(dataSources)
      ensures viewer == AddEntity(old(viewer), name, x)
    {
      var ds := viewer[name][0];
      if !HasId(ds.entities, x.id) {
        viewer := viewer[name := [ds.(entities := ds.entities + [x])] + viewer[name][1..]];
      }
    }

    /**
     * `addOrUpdateEntities`: each entity in turn. `completed` is false when
     * the call threw: at once for a `null` or `undefined` argument (`None`),
     * or at an entity without a geometry, after the entities before it were
     * added. When the call completes its result is `true`.
     */
    method AddOrUpdateEntities(batch: Option<seq<VisualizerEntity>>) returns (completed: bool)
      modifies this
      ensures completed <==> Completes(batch)
      ensures CurrentScene() == AddAll(dataSourceGuid, fromDegrees, old(CurrentScene()), Added(batch))
    {
      if batch.None? {
        // `logicalEntities.forEach` throws a TypeError
        return false;
      }
      var logicalEntities := batch.value;
      var i := 0;
      while i < |logicalEntities|
        invariant 0 <= i <= Processed(logicalEntities)
        invariant CurrentScene() == AddAll(dataSourceGuid, fromDegrees, old(CurrentScene()), logicalEntities[..i])
      {
        var entity := logicalEntities[i];
        if entity.featureJson.geometry.None? {
          // `featureJson.geometry.type` throws a TypeError
          ProcessedStopsAt(logicalEntities, i);
          return false;
        }
        ProcessedPasses(logicalEntities, i);
        assert logicalEntities[..i + 1][..i] == logicalEntities[..i];
        AddOne(entity);
        i := i + 1;
      }
      assert logicalEntities[..i] == logicalEntities;
      completed := true;
    }

    /** The `forEach` callback of `addOrUpdateEntities`: one entity, dispatched on its geometry type. */
    method AddOne(entity: VisualizerEntity)
      requires entity.featureJson.geometry.Some?
      modifies this
      ensures CurrentScene() == AddStep(dataSourceGuid, fromDegrees, old(CurrentScene()), entity)
    {
      var g := entity.featureJson.geometry.value;
      match g {
        case Point(c) =>
          var name := GetOrCreateDataSource(TypeName(g));
          if entity.icon != "" {
            AddToDataSource(name, GetBillboard(fromDegrees, entity.id, c, entity.icon));
          } else {
            AddToDataSource(name, GetPoint(fromDegrees, entity.id, c, entity.style));
          }
        case LineString(cs) =>
          var name := GetOrCreateDataSource(TypeName(g));
          var x := GetPolyline(fromDegrees, entity.id, cs, entity.style);
          AddToDataSource(name, x);
        case Polygon(rings) =>
          var name := GetOrCreateDataSource(TypeName(g));
          if rings != [] {
            var x := GetPolygon(fromDegrees, entity.id, rings, entity.style);
            AddToDataSource(name, x);
          }
        case MultiPoint(_) =>
        case MultiLineString(_) =>
        case MultiPolygon(_) =>
        case Unknown(_) =>
          // the source only logs a warning
      }
    }

    /** The loop shared by `clearEntities`, `removeEntity` and `setVisibility`. */
    method UpdateTrackedSources(u: SourceUpdate)
      modifies this
      ensures dataSources == old(dataSources)
      ensures viewer == UpdateTracked(old(viewer), dataSources, u)
    {
      var remaining := dataSources;
      while remaining != {}
        invariant dataSources == old(dataSources)
        invariant remaining <= dataSources
        invariant viewer.Keys == old(viewer).Keys
        invariant forall n :: n in viewer ==>
          viewer[n] == if n in dataSources - remaining && |old(viewer)[n]| == 1 then [Apply(u, old(viewer)[n][0])] else old(viewer)[n]
        decreases remaining
      {
        var name :| name in remaining;
        var ds := GetByName(viewer, name);
        if |ds| == 1 {
          viewer := viewer[name := [Apply(u, ds[0])]];
        }
        remaining := remaining - {name};
      }
    }

    /** `clearEntities`. */
    method ClearEntities()
      modifies this
      ensures dataSources == old(dataSources)
      ensures viewer == UpdateTracked(old(viewer), dataSources, RemoveAll)
    {
      UpdateTrackedSources(RemoveAll);
    }

    /** `removeEntity(id)`. */
    method RemoveEntity(logicalEntityId: string)
      modifies this
      ensures dataSources == old(dataSources)
      ensures viewer == UpdateTracked(old(viewer), dataSources, RemoveById(logicalEntityId))
    {
      UpdateTrackedSources(RemoveById(logicalEntityId));
    }

    /** `setVisibility(isVisible)`. */
    method SetVisibility(isVisible: bool)
      modifies this
      ensures dataSources == old(dataSources)
      ensures viewer == UpdateTracked(old(viewer), dataSources, SetShow(isVisible))
    {
      UpdateTrackedSources(SetShow(isVisible));
    }

    /**
     * `setEntities`: `clearEntities` followed by `addOrUpdateEntities`. The
     * sources are cleared even when the argument then makes the call throw.
     */
    method SetEntities(batch: Option<seq<VisualizerEntity>>) returns (completed: bool)
      modifies this
      ensures completed <==> Completes(batch)
      ensures CurrentScene() == AddAll(dataSourceGuid, fromDegrees,
        Scene(old(dataSources), UpdateTracked(old(viewer), old(dataSources), RemoveAll)),
        Added(batch))
    {
      ClearEntities();
      completed := AddOrUpdateEntities(batch);
    }
  }

  lemma {:induction false} ProcessedStopsAt(es: seq<VisualizerEntity>, i: nat)
    requires i < |es| && es[i].featureJson.geometry.None?
    requires forall j :: 0 <= j < i ==> es[j].featureJson.geometry.Some?
    ensures Processed(es) == i
  {
    if i > 0 {
      ProcessedStopsAt(es[1..], i - 1);
    }
  }

  lemma {:induction false} ProcessedPasses(es: seq<VisualizerEntity>, i: nat)
    requires i < |es| && es[i].featureJson.geometry.Some?
    requires forall j :: 0 <= j < i ==> es[j].featureJson.geometry.Some?
    ensures Processed(es) > i
  {
    if i > 0 {
      ProcessedPasses(es[1..], i - 1);
    }
  }
}
