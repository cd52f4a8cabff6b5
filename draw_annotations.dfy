/**
 * imagery-cesium/plugins/draw-annotations.visualizer.ts: the interactive
 * drawing session on the globe and the conversion of an annotation layer to
 * visualizer entities.
 *
 * Pointer events arrive as method calls. Each carries the result of the
 * renderer's screen-to-earth projection (`getEarthPositionFromScreenPixels`),
 * `None` when the pixel misses the globe. The temporary renderer entities
 * (the floating marker and the live shape) are recorded only as present or
 * absent.
 */
module DrawAnnotations {
  import opened Wrappers
  import opened Js
  import opened GeoTypes
  import opened CesiumToGeo

  datatype AnnotationMode = PointMode | LineStringMode | PolygonMode | CircleMode | RectangleMode | ArrowMode

  /** The stream `startDrawing` returned, as the caller sees it. */
  datatype Stream =
    | NoStream          // nothing returned yet, or the point stream already completed
    | FirstClick        // Point mode: `leftClickEvent$.pipe(take(1), ...)`
    | EveryDoubleClick  // other modes: `leftDoubleClickEvent$.pipe(map(onDrawEnd))`

  /** What one event makes the returned stream emit. */
  datatype Emission =
    | Silent
    | Emitted(collection: FeatureCollection)
    | Faulty  // the source feeds `undefined` to the conversion or reads a missing coordinate

  /** The style the visualizer falls back on (`visualizerStyle`). */
  const DefaultVisualizerStyle :=
    StateStyle(1.0, Some(StyleSpec(Some("blue"), Some(3.0), Some(0.0), None, Some("transparent"), None, None, None)))

  /** The `labelSize` used when a feature has none (or 0). */
  const DefaultLabelSize := 28.0

  // ---------------------------------------------------------------------
  // annotationsLayerToEntities
  // ---------------------------------------------------------------------

  /**
   * One feature to one entity: the id is `properties.id`, `featureJson` is
   * the feature with `properties.featureJson` cleared, and every falsy option
   * takes its default (`||`), so a `labelSize` of 0 becomes 28 and an empty
   * `icon` stays empty.
   */
  function FeatureToEntity(visualizerStyle: StateStyle, feature: Feature): (e: VisualizerEntity)
    ensures e.id == feature.properties.id
    ensures e.featureJson.geometry == feature.geometry
    ensures e.featureJson.properties.featureJson.None?
    ensures e.featureJson.properties.(featureJson := feature.properties.featureJson) == feature.properties
    ensures e.style == Some(if feature.properties.style.Some? then feature.properties.style.value else visualizerStyle)
    ensures e.showMeasures <==> feature.properties.showMeasures == Some(true)
    ensures e.showArea <==> feature.properties.showArea == Some(true)
    ensures e.undeletable <==> feature.properties.undeletable == Some(true)
    ensures e.labelTranslateOn <==> feature.properties.labelTranslateOn == Some(true)
    ensures e.icon == if feature.properties.icon.Some? then feature.properties.icon.value else ""
    ensures TruthyNum(feature.properties.labelSize) ==> e.labelSize == feature.properties.labelSize.value
    ensures !TruthyNum(feature.properties.labelSize) ==> e.labelSize == DefaultLabelSize
    ensures feature.properties.textLabel.None? ==> e.textLabel == Label("", None)
    ensures feature.properties.textLabel.Some? ==> e.textLabel == feature.properties.textLabel.value
  {
    var p := feature.properties;
    VisualizerEntity(
      p.id,
      feature.(properties := p.(featureJson := None)),
      Some(OrObject(p.style, visualizerStyle)),
      OrFalse(p.showMeasures),
      OrFalse(p.showArea),
      OrObject(p.textLabel, Label("", None)),
      OrEmpty(p.icon),
      OrFalse(p.undeletable),
      OrNum(p.labelSize, DefaultLabelSize),
      OrFalse(p.labelTranslateOn))
  }

  /**
   * `annotationsLayerToEntities`: one entity per feature, in order. The
   * visualizer passes its own `visualizerStyle`, `DefaultVisualizerStyle`.
   */
  function AnnotationsLayerToEntities(visualizerStyle: StateStyle, layer: FeatureCollection): (es: seq<VisualizerEntity>)
    ensures |es| == |layer.features|
    ensures forall i :: 0 <= i < |es| ==> es[i] == FeatureToEntity(visualizerStyle, layer.features[i])
  {
    seq(|layer.features|, i requires 0 <= i < |layer.features| => FeatureToEntity(visualizerStyle, layer.features[i]))
  }

  /** A feature with no options set yields an entity made only of defaults. */
  lemma BareFeatureDefaults(visualizerStyle: StateStyle, g: Option<Geometry>)
    ensures var e := FeatureToEntity(visualizerStyle, Feature(g, NoProperties));
      && e.id.None? && e.style == Some(visualizerStyle) && e.icon == "" && e.labelSize == 28.0
      && !e.showMeasures && !e.showArea && !e.undeletable && !e.labelTranslateOn
      && e.textLabel == Label("", None)
  {
  }

  // ---------------------------------------------------------------------
  // generateGeometry
  // ---------------------------------------------------------------------

  /** The collection `turf.featureCollection([turf.feature(geometry)])`. */
  function Single(geometry: Option<Geometry>): FeatureCollection {
    FeatureCollection([Feature(geometry, NoProperties)])
  }

  /**
   * `generateGeometry`. Point takes the first converted position, LineString
   * all of them, Polygon one ring closed by repeating the LAST position; any
   * other mode produces a feature without geometry. `None` marks an empty
   * list in Point or Polygon mode, where the source reads `coordinates[0]` or
   * `coordinates[-1]` and builds the geometry around `undefined`.
   */
  function GenerateGeometry(toGeodetic: ToGeodetic, mode: AnnotationMode, points: seq<Cartesian3>)
    : (r: Option<FeatureCollection>)
    ensures r.None? <==> points == [] && (mode == PointMode || mode == PolygonMode)
    ensures r.Some? ==> |r.value.features| == 1 && r.value.features[0].properties == NoProperties
    ensures r.Some? && mode == PointMode ==>
      r.value.features[0].geometry == Some(Point(CartesianToCoordinates(toGeodetic, points)[0]))
    ensures mode == LineStringMode ==>
      r == Some(Single(Some(LineString(CartesianToCoordinates(toGeodetic, points)))))
    ensures r.Some? && mode == PolygonMode ==>
      var g := r.value.features[0].geometry;
      && g.Some? && g.value.Polygon? && |g.value.rings| == 1
      && var ring := g.value.rings[0];
      && |ring| == |points| + 1
      && ring[..|points|] == CartesianToCoordinates(toGeodetic, points)
      && ring[|points|] == ring[|points| - 1]
    ensures mode !in {PointMode, LineStringMode, PolygonMode} ==> r == Some(Single(None))
  {
    var coordinates := CartesianToCoordinates(toGeodetic, points);
    match mode
    case PointMode =>
      if coordinates == [] then None else Some(Single(Some(Point(coordinates[0]))))
    case PolygonMode =>
      if coordinates == [] then None
      else Some(Single(Some(Polygon([coordinates + [coordinates[|coordinates| - 1]]]))))
    case LineStringMode =>
      Some(Single(Some(LineString(coordinates))))
    case _ =>
      Some(Single(None))
  }

  /** What the returned stream emits for a generated geometry. */
  function EmissionOf(r: Option<FeatureCollection>): Emission {
    if r.Some? then Emitted(r.value) else Faulty
  }

  // ---------------------------------------------------------------------
  // The vertex list under clicks and moves
  // ---------------------------------------------------------------------

  /**
   * The click handler on `activeShapePoints`: a failed projection changes
   * nothing; the first position is pushed twice (the anchor and the copy the
   * cursor drags); later positions are pushed once.
   */
  function ClickStep(points: seq<Cartesian3>, p: Option<Cartesian3>): (r: seq<Cartesian3>)
    ensures p.None? ==> r == points
    ensures p.Some? ==> |r| == |points| + (if points == [] then 2 else 1)
    ensures p.Some? ==> r[..|points|] == points && r[|r| - 1] == p.value
    ensures p.Some? && points == [] ==> r[0] == p.value
  {
    if p.None? then points
    else if points == [] then [p.value, p.value]
    else points + [p.value]
  }

  /**
   * `updateLastActivePoint`: with no vertex yet (no floating marker) or a
   * failed projection nothing changes; otherwise the last vertex is replaced.
   */
  function MoveStep(points: seq<Cartesian3>, p: Option<Cartesian3>): (r: seq<Cartesian3>)
    ensures |r| == |points|
    ensures points != [] ==> r[..|r| - 1] == points[..|points| - 1]
    ensures p.Some? && points != [] ==> r[|r| - 1] == p.value
    ensures p.None? || points == [] ==> r == points
  {
    if p.None? || points == [] then points else points[..|points| - 1] + [p.value]
  }

  datatype PointerEvent = Click(clicked: Option<Cartesian3>) | Move(moved: Option<Cartesian3>)

  function Step(points: seq<Cartesian3>, e: PointerEvent): seq<Cartesian3> {
    match e
    case Click(p) => ClickStep(points, p)
    case Move(p) => MoveStep(points, p)
  }

  /** The vertex list after a run of clicks and moves while the handlers are subscribed. */
  function Run(points: seq<Cartesian3>, events: seq<PointerEvent>): seq<Cartesian3>
    decreases |events|
  {
    if events == [] then points else Run(Step(points, events[0]), events[1..])
  }

  /** The number of clicks whose projection succeeded. */
  function ValidClicks(events: seq<PointerEvent>): nat {
    if events == [] then 0
    else (if events[0].Click? && events[0].clicked.Some? then 1 else 0) + ValidClicks(events[1..])
  }

  /**
   * The list is empty until the first valid click and has one more entry
   * than there were valid clicks from then on; moves and failed clicks never
   * change its length.
   */
  lemma {:induction false} RunLength(points: seq<Cartesian3>, events: seq<PointerEvent>)
    requires |points| != 1
    ensures var n := |Run(points, events)|;
      if points == [] && ValidClicks(events) == 0 then n == 0
      else if points == [] then n == ValidClicks(events) + 1
      else n == |points| + ValidClicks(events)
    decreases |events|
  {
    if events != [] {
      var next := Step(points, events[0]);
      RunLength(next, events[1..]);
    }
  }

  /** Clicks and moves never touch committed vertices: the list before the last entry only grows. */
  lemma {:induction false} RunKeepsCommitted(points: seq<Cartesian3>, events: seq<PointerEvent>)
    requires points != []
    ensures |Run(points, events)| >= |points|
    ensures Run(points, events)[..|points| - 1] == points[..|points| - 1]
    decreases |events|
  {
    if events != [] {
      var next := Step(points, events[0]);
      assert |next| >= |points| && next[..|points| - 1] == points[..|points| - 1];
      RunKeepsCommitted(next, events[1..]);
      assert Run(next, events[1..])[..|next| - 1][..|points| - 1] == Run(next, events[1..])[..|points| - 1];
    }
  }

  /** After the first valid click the anchor, the first vertex, is that click's position. */
  lemma {:induction false} FirstClickAnchors(p: Cartesian3, events: seq<PointerEvent>)
    ensures |Run([], [Click(Some(p))] + events)| >= 2
    ensures Run([], [Click(Some(p))] + events)[0] == p
  {
    var evs := [Click(Some(p))] + events;
    assert evs[1..] == events;
    RunKeepsCommitted([p, p], events);
    assert Run([p, p], events)[..1] == [p];
  }

  /**
   * A polygon drawn with k >= 1 valid clicks and then finished is one ring of
   * k + 2 positions whose last two entries are equal: the preview vertex is
   * kept and the ring is closed with the last vertex, not the first.
   */
  lemma PolygonSessionRing(toGeodetic: ToGeodetic, events: seq<PointerEvent>)
    requires ValidClicks(events) >= 1
    ensures var r := GenerateGeometry(toGeodetic, PolygonMode, Run([], events));
      && r.Some?
      && var ring := r.value.features[0].geometry.value.rings[0];
      && |ring| == ValidClicks(events) + 2
      && ring[|ring| - 1] == ring[|ring| - 2]
  {
    RunLength([], events);
  }

  // ---------------------------------------------------------------------
  // The drawing session
  // ---------------------------------------------------------------------

  /**
   * Whether `addAnnotation(drawingMode, ...)` creates a live shape: its
   * switch knows LineString, Polygon and Point only, so in Circle,
   * Rectangle and Arrow mode it returns `undefined`. Point mode never
   * reaches it, as it attaches no click handler.
   */
  predicate HasLiveShape(mode: AnnotationMode) {
    mode == LineStringMode || mode == PolygonMode
  }

  /** `CesiumDrawAnnotationsVisualizer`. */
  class DrawAnnotationsVisualizer {
    /** The renderer's conversion used by `cartesianToCoordinates`. */
    const toGeodetic: ToGeodetic

    var drawingMode: AnnotationMode
    var activeShapePoints: seq<Cartesian3>
    /** Whether the floating marker (`floatingPoint`) exists. */
    var floatingPoint: bool
    /** Whether the live shape (`activeShape`) exists. */
    var activeShape: bool
    /** Whether `mapEventsSubscription` holds the live click and move handlers. */
    var listening: bool
    /** Which `mapEventsSubscription` is current; each `startDrawing` makes a fresh one. */
    var subscription: nat
    /** The stream the latest `startDrawing` returned. */
    var drawStream: Stream

    ghost predicate Valid()
      reads this
    {
      && floatingPoint == (activeShapePoints != [])
      && (activeShape ==> floatingPoint)
      && |activeShapePoints| != 1
      && (listening ==> drawStream == EveryDoubleClick)
      && (drawStream == FirstClick ==> drawingMode == PointMode)
      && (drawStream == EveryDoubleClick ==> drawingMode != PointMode)
    }

    /** The visualizer after `onInit`: LineString mode, nothing drawn, nothing subscribed. */
    constructor (toGeodetic: ToGeodetic)
      ensures Valid()
      ensures this.toGeodetic == toGeodetic
      ensures drawingMode == LineStringMode && activeShapePoints == []
      ensures !listening && drawStream == NoStream && subscription == 0
    {
      this.toGeodetic := toGeodetic;
      drawingMode := LineStringMode;
      activeShapePoints := [];
      floatingPoint, activeShape := false, false;
      listening := false;
      subscription := 0;
      drawStream := NoStream;
    }

    /**
     * `startDrawing`: records the mode and replaces the previous subscription
     * with a fresh one. In Point mode no handler is attached and the stream
     * waits for one click; otherwise the click and move handlers are attached
     * and every double-click finishes the shape. The vertex list and the
     * temporary entities are left as they were.
     */
    method StartDrawing(mode: AnnotationMode)
      requires Valid()
      modifies this
      ensures Valid()
      ensures drawingMode == mode
      ensures subscription == old(subscription) + 1
      ensures listening <==> mode != PointMode
      ensures drawStream == if mode == PointMode then FirstClick else EveryDoubleClick
      ensures activeShapePoints == old(activeShapePoints)
      ensures floatingPoint == old(floatingPoint) && activeShape == old(activeShape)
    {
      drawingMode := mode;
      listening := false;
      subscription := subscription + 1;
      if drawingMode == PointMode {
        drawStream := FirstClick;
        return;
      }
      listening := true;
      drawStream := EveryDoubleClick;
    }

    /**
     * A left click with its projection. In Point mode the stream takes this
     * one click, whatever its projection, and completes. Otherwise the click
     * handler, when subscribed, applies `ClickStep`; on the first vertex it
     * creates the floating marker, and the live shape when the mode has one.
     */
    method OnClick(p: Option<Cartesian3>) returns (e: Emission)
      requires Valid()
      modifies this
      ensures Valid()
      ensures drawingMode == old(drawingMode) && subscription == old(subscription)
      ensures listening == old(listening)
      ensures old(drawStream) == FirstClick ==>
        && drawStream == NoStream
        && activeShapePoints == old(activeShapePoints)
        && e == (if p.None? then Faulty else EmissionOf(GenerateGeometry(toGeodetic, PointMode, [p.value])))
      ensures old(drawStream) != FirstClick ==>
        && drawStream == old(drawStream)
        && e == Silent
        && activeShapePoints == if old(listening) then ClickStep(old(activeShapePoints), p) else old(activeShapePoints)
      ensures old(drawStream) != FirstClick && old(listening) && old(activeShapePoints) == [] && p.Some? ==>
        floatingPoint && (activeShape <==> HasLiveShape(drawingMode))
      ensures !(old(drawStream) != FirstClick && old(listening) && old(activeShapePoints) == [] && p.Some?) ==>
        floatingPoint == old(floatingPoint) && activeShape == old(activeShape)
    {
      e := Silent;
      if drawStream == FirstClick {
        drawStream := NoStream;
        if p.None? {
          // `cartesianToCoordinates([undefined])`
          e := Faulty;
        } else {
          e := EmissionOf(GenerateGeometry(toGeodetic, drawingMode, [p.value]));
        }
        return;
      }
      if listening && p.Some? {
        if activeShapePoints == [] {
          floatingPoint := true;
          activeShapePoints := activeShapePoints + [p.value];
          activeShape := HasLiveShape(drawingMode);
        }
        activeShapePoints := activeShapePoints + [p.value];
      }
    }

    /** A mouse move with its projection: the move handler, when subscribed, runs `updateLastActivePoint`. */
    method OnMove(p: Option<Cartesian3>)
      requires Valid()
      modifies this
      ensures Valid()
      ensures drawingMode == old(drawingMode) && subscription == old(subscription)
      ensures listening == old(listening) && drawStream == old(drawStream)
      ensures floatingPoint == old(floatingPoint) && activeShape == old(activeShape)
      ensures activeShapePoints == if old(listening) then MoveStep(old(activeShapePoints), p) else old(activeShapePoints)
    {
      if listening && floatingPoint && p.Some? {
        activeShapePoints := activeShapePoints[..|activeShapePoints| - 1];
        activeShapePoints := activeShapePoints + [p.value];
      }
    }

    /**
     * A double-click. When the returned stream listens to double-clicks it
     * runs `onDrawEnd`: unsubscribe the handlers, remove the temporary
     * entities, empty the vertex list and generate the geometry from the
     * whole list as it was, trailing preview vertex included.
     */
    method OnDoubleClick() returns (e: Emission)
      requires Valid()
      modifies this
      ensures Valid()
      ensures drawingMode == old(drawingMode) && subscription == old(subscription)
      ensures drawStream == old(drawStream)
      ensures old(drawStream) == EveryDoubleClick ==>
        && e == EmissionOf(GenerateGeometry(toGeodetic, old(drawingMode), old(activeShapePoints)))
        && activeShapePoints == [] && !floatingPoint && !activeShape && !listening
      ensures old(drawStream) != EveryDoubleClick ==>
        e == Silent && activeShapePoints == old(activeShapePoints) && listening == old(listening)
        && floatingPoint == old(floatingPoint) && activeShape == old(activeShape)
    {
      e := Silent;
      if drawStream == EveryDoubleClick {
        listening := false;
        var shapePoints := activeShapePoints;
        floatingPoint := false;
        activeShapePoints := [];
        activeShape := false;
        e := EmissionOf(GenerateGeometry(toGeodetic, drawingMode, shapePoints));
      }
    }
  }

  /**
   * Point mode end to end: after `startDrawing(Point)` one click with a
   * successful projection emits a single Point at that position, and the
   * stream is done; later clicks emit nothing.
   */
  method PointSession(toGeodetic: ToGeodetic, p: Cartesian3) returns (first: Emission, second: Emission)
    ensures first == Emitted(Single(Some(Point(CartesianToCoordinates(toGeodetic, [p])[0]))))
    ensures second == Silent
  {
    var v := new DrawAnnotationsVisualizer(toGeodetic);
    v.StartDrawing(PointMode);
    first := v.OnClick(Some(p));
    second := v.OnClick(Some(p));
  }

  /**
   * A line session: click, move, a move and a click whose projections
   * failed, click, then double-click. The line has the anchor, the moved-to
   * vertex and the last click, in that order.
   */
  method LineSession(toGeodetic: ToGeodetic, a: Cartesian3, b: Cartesian3, c: Cartesian3)
    returns (e: Emission)
    ensures e == Emitted(Single(Some(LineString(CartesianToCoordinates(toGeodetic, [a, b, c])))))
  {
    var v := new DrawAnnotationsVisualizer(toGeodetic);
    v.StartDrawing(LineStringMode);
    var _ := v.OnClick(Some(a));
    assert v.activeShapePoints == [a, a];
    v.OnMove(Some(b));
    assert v.activeShapePoints == [a, b];
    v.OnMove(None);
    var _ := v.OnClick(None);
    var _ := v.OnClick(Some(c));
    assert v.activeShapePoints == [a, b, c];
    e := v.OnDoubleClick();
  }
}
