# Cesium annotation drawing and entity bookkeeping, in Dafny

This project models the core of the Cesium plugin package of the imagery
library:

- **The interactive drawing session** (`CesiumDrawAnnotationsVisualizer`,
  `DrawAnnotations.DrawAnnotationsVisualizer`). `startDrawing` picks a mode.
  Left clicks, mouse moves and double-clicks arrive with the result of the
  screen-to-earth projection. The visualizer collects vertices
  (`activeShapePoints`), creates a floating marker and a live shape, and
  `generateGeometry` finishes the drawing as a one-feature GeoJSON
  collection. `annotationsLayerToEntities` turns a feature collection into
  visualizer entities, filling defaults.
- **Entity bookkeeping** (`BaseEntitiesVisualizer`,
  `EntitiesVisualizer.BaseEntitiesVisualizer`). Point, LineString and Polygon
  entities go into one renderer data source per geometry type, named
  `<dataSourceGuid>_<type>`. The source is created on demand and its name is
  tracked. Entities are cleared, removed by id and shown or hidden across the
  tracked sources.
- **Style resolution** (`StyleHelper`): default stroke width, outline on or
  off, dashed or solid lines, `#rrggbbaa` splitting and alpha precedence.
- **Coordinate shaping** (`GeoToCesium`, `CesiumToGeo`): GeoJSON position
  lists to renderer positions and back, position by position.
- **`createDateString`** (`SentinelDate`): the `Y-mm-dd` date of an imagery
  request. For four-digit years it is the `full-date` of section 5.6 of
  RFC 3339.

The renderer's own conversions are parameters: `Cartesian3.fromDegrees`
(`GeoToCesium.FromDegrees`) and the WGS84 ellipsoid conversion to degrees
(`CesiumToGeo.ToGeodetic`). The screen-to-earth projection arrives as the
`Option<Cartesian3>` argument of each pointer event. The renderer's
data-source collection is a map from a name to every source of that name,
so `getByName` can find none, one or several sources.

Files: `wrappers.dfy` (Option), `js.dfy` (JavaScript falsy values, `||`),
`hex_color.dfy` (the `#rrggbbaa` test and `parseInt(s, 16)`),
`geo_types.dfy` (GeoJSON, style records, visualizer entities),
`geo_to_cesium.dfy`, `cesium_to_geo.dfy`, `style_helper.dfy`,
`draw_annotations.dfy`, `entities_visualizer.dfy`, `sentinel_date.dfy`.

Points where the code's behaviour is narrower than one might expect, and
which the model follows:

- The polygon ring is closed by repeating the last vertex, not the first.
- The trailing preview vertex is part of the finished shape.
- A double-click with no vertex is not guarded.
- `startDrawing` accepts every mode and returns a stream, not a boolean.
- Multi-part geometries are no-ops, and there is no style merge.
- `clearEntities` empties sources but keeps their names.
- A Point-mode click is not checked for a failed projection.
- A live shape exists only in LineString and Polygon mode; in Circle, Rectangle and Arrow mode only the floating marker is drawn.
- A `null` or `undefined` batch makes `addOrUpdateEntities` throw, and `setEntities` has cleared its sources by then.

## Model

| member | source | states |
|---|---|---|
| `DrawAnnotations.FeatureToEntity` | imagery-cesium/plugins/draw-annotations.visualizer.ts:63-86 | id is `properties.id`; `featureJson` is the feature with `properties.featureJson` cleared and every other property and the geometry kept; each falsy option takes its default (`style` → visualizer style, flags → false, `icon` → "", `labelSize` 0 or absent → 28, label → empty text and no geometry) |
| `DrawAnnotations.AnnotationsLayerToEntities` | imagery-cesium/plugins/draw-annotations.visualizer.ts:61-88 | one entity per feature, in order, each the conversion of its feature |
| `DrawAnnotations.BareFeatureDefaults` | imagery-cesium/plugins/draw-annotations.visualizer.ts:74-84 | a feature with no options yields an entity made only of the defaults |
| `DrawAnnotations.GenerateGeometry` | imagery-cesium/plugins/draw-annotations.visualizer.ts:195-226 | one feature; Point is the first converted position; LineString is all converted positions; Polygon is one ring of n+1 positions, the converted list followed by a copy of its last entry; other modes give no geometry; an empty list in Point or Polygon mode is the undefined case (`None`) |
| `DrawAnnotations.ClickStep` | imagery-cesium/plugins/draw-annotations.visualizer.ts:103-122 | a failed projection changes nothing; otherwise the list keeps its entries and gains the position at its end, and the first position is pushed twice (anchor and dragged copy) |
| `DrawAnnotations.MoveStep` | imagery-cesium/plugins/draw-annotations.visualizer.ts:134-143 | a move keeps the length and every entry but the last, and replaces the last with the new position; before the first vertex, or with a failed projection, it changes nothing |
| `DrawAnnotations.RunLength` | imagery-cesium/plugins/draw-annotations.visualizer.ts:103-122 | over any run of clicks and moves the list stays empty until the first valid click and then has one more entry than valid clicks; failed clicks and moves never change the length |
| `DrawAnnotations.RunKeepsCommitted` | imagery-cesium/plugins/draw-annotations.visualizer.ts:112-140 | clicks and moves never alter entries before the last one; the list only grows |
| `DrawAnnotations.FirstClickAnchors` | imagery-cesium/plugins/draw-annotations.visualizer.ts:106-121 | the first valid click is pushed twice, so it stays the first vertex whatever follows |
| `DrawAnnotations.PolygonSessionRing` | imagery-cesium/plugins/draw-annotations.visualizer.ts:207-213 | a polygon drawn with k ≥ 1 valid clicks finishes as a ring of k+2 positions whose last two entries are equal |
| `DrawAnnotations.DrawAnnotationsVisualizer.constructor` | imagery-cesium/plugins/draw-annotations.visualizer.ts:24-33 | starts in LineString mode with no vertex, no temporary entity and no handler |
| `DrawAnnotations.DrawAnnotationsVisualizer.StartDrawing` | imagery-cesium/plugins/draw-annotations.visualizer.ts:90-132 | records the mode and makes a fresh subscription; Point mode attaches no handler and waits for one click; other modes attach the handlers and finish on double-click; vertices and temporary entities are untouched |
| `DrawAnnotations.DrawAnnotationsVisualizer.OnClick` | imagery-cesium/plugins/draw-annotations.visualizer.ts:95-122 | in Point mode this one click ends the stream and emits a Point at the converted position, or a fault when the projection failed (the source does not check it); otherwise the subscribed handler applies the click step; the first vertex creates the floating marker, and the live shape exactly in LineString and Polygon mode (`addAnnotation` knows no other mode); the invariant (floating marker exactly when there are vertices, live shape only with it, never exactly one vertex) is kept |
| `DrawAnnotations.DrawAnnotationsVisualizer.OnMove` | imagery-cesium/plugins/draw-annotations.visualizer.ts:125-143 | the subscribed move handler applies the move step; nothing else changes |
| `DrawAnnotations.DrawAnnotationsVisualizer.OnDoubleClick` | imagery-cesium/plugins/draw-annotations.visualizer.ts:181-192 | emits the geometry of the whole pre-reset list, preview vertex included, then leaves no vertex, no temporary entity and no handler |
| `DrawAnnotations.PointSession` | imagery-cesium/plugins/draw-annotations.visualizer.ts:95-99 | Point mode finishes after exactly one click with a Point at that position; a second click emits nothing |
| `DrawAnnotations.LineSession` | imagery-cesium/plugins/draw-annotations.visualizer.ts:102-131 | click, move, failed move, failed click, click, double-click gives the line anchor, moved-to vertex, last click |
| `CesiumToGeo.CartesianToCoordinates` | imagery-cesium/plugins/utils/cesiumToGeo.ts:4-14 | one `[lon, lat, alt]` position per input position, same length |
| `CesiumToGeo.CoordinatesPointwise` | imagery-cesium/plugins/utils/cesiumToGeo.ts:5-11 | output entry i depends on input entry i alone |
| `GeoToCesium.CoordinatesToCartesian` | imagery-cesium/plugins/utils/geoToCesium.ts:4-6 | longitude, latitude and height are components 0, 1 and 2; a two-component position passes an undefined height |
| `GeoToCesium.ExtraComponentsIgnored` | imagery-cesium/plugins/utils/geoToCesium.ts:4-6 | only components 0, 1 and 2 are passed to the conversion; further components change nothing |
| `GeoToCesium.MissingHeightIsUndefined` | imagery-cesium/plugins/utils/geoToCesium.ts:4-6 | a two-component position is converted with an undefined height |
| `GeoToCesium.ConvertAllAppend` | imagery-cesium/plugins/utils/geoToCesium.ts:8-14 | converting a concatenation converts each part |
| `GeoToCesium.CoordinatesArrayToCartesian` | imagery-cesium/plugins/utils/geoToCesium.ts:8-14 | output has the input's length and entry i is the conversion of input i |
| `GeoToCesium.MultiLineToCartesian` | imagery-cesium/plugins/utils/geoToCesium.ts:16-22 | the same flat result as `coordinatesArrayToCartesian`, not a list of lines |
| `GeoToCesium.PolygonCoordinatesToCartesian` | imagery-cesium/plugins/utils/geoToCesium.ts:24-26 | equals the conversion of the same ring |
| `GeoToCesium.MultiPolygonCoordinatesToCartesian` | imagery-cesium/plugins/utils/geoToCesium.ts:28-34 | one converted ring per polygon, taken from its outer ring; holes dropped |
| `HexColor.RrggbbaaAlpha` | imagery-cesium/plugins/helpers/visualizer-style-helper.ts:39 | for `#rrggbbaa`, `parseInt(substring(7), 16) / 255` is the byte `aa` over 255, between 0 and 1 |
| `HexColor.ShortColorAlphaIsNaN` | imagery-cesium/plugins/helpers/visualizer-style-helper.ts:39 | a colour of at most seven characters parses to a NaN alpha |
| `StyleHelper.GetStrokeWidth` | imagery-cesium/plugins/helpers/visualizer-style-helper.ts:4-6 | the `stroke-width` option when truthy, 3 when absent or 0; never 0 |
| `StyleHelper.GetShowOutline` | imagery-cesium/plugins/helpers/visualizer-style-helper.ts:20-22 | false exactly when `stroke-opacity` is 0; absent gives true |
| `StyleHelper.GetColor` | imagery-cesium/plugins/helpers/visualizer-style-helper.ts:35-46 | base colour is the first 7 characters iff the input is `#rrggbbaa`, else the whole input; an explicit opacity wins, else the parsed alpha (never the fallback 1) |
| `StyleHelper.GetFillColor` | imagery-cesium/plugins/helpers/visualizer-style-helper.ts:8-12 | colour from `fill` and alpha from `fill-opacity`, both from `initial` |
| `StyleHelper.GetStrokeColor` | imagery-cesium/plugins/helpers/visualizer-style-helper.ts:14-18 | colour from `stroke` and alpha from `stroke-opacity`, both from `initial` |
| `StyleHelper.GetLineMaterial` | imagery-cesium/plugins/helpers/visualizer-style-helper.ts:24-32 | dashed with `dashLength = stroke-dasharray` iff that is positive, otherwise solid; the stroke colour either way |
| `StyleHelper.RrggbbaaWithoutOpacity` | imagery-cesium/plugins/helpers/visualizer-style-helper.ts:36-40 | a `#rrggbbaa` colour without opacity becomes `#rrggbb` with alpha `aa`/255 in [0, 1] |
| `StyleHelper.ZeroOpacityWins` | imagery-cesium/plugins/helpers/visualizer-style-helper.ts:43 | an explicit opacity of 0 is kept (`??`) |
| `StyleHelper.ShortColorGetsNaNAlpha` | imagery-cesium/plugins/helpers/visualizer-style-helper.ts:39-43 | `alpha !== NaN` always holds: a `#rrggbb` colour without opacity gets alpha NaN, not 1 |
| `StyleHelper.ColorsReadOwnOptions` | imagery-cesium/plugins/helpers/visualizer-style-helper.ts:8-18 | fill colour reads only `fill`/`fill-opacity`, stroke colour only `stroke`/`stroke-opacity` |
| `EntitiesVisualizer.InitialOf` | imagery-cesium/plugins/entities-visualizer/base-entities-visualizer.ts:159-160 | `merge({}, styles.initial)`: the initial options, or none when the style or `initial` is absent |
| `EntitiesVisualizer.GetColor` | imagery-cesium/plugins/entities-visualizer/base-entities-visualizer.ts:206-218 | "RED" when absent; `#rrggbbaa` is split into `#rrggbb` and alpha `aa`/255; any other string is used whole with the renderer's own alpha |
| `EntitiesVisualizer.GetBillboard` | imagery-cesium/plugins/entities-visualizer/base-entities-visualizer.ts:133-141 | the id, the converted point as position and the icon URL as image |
| `EntitiesVisualizer.GetPoint` | imagery-cesium/plugins/entities-visualizer/base-entities-visualizer.ts:143-154 | the id, the converted point as position, and the colour of `initial`'s `marker-color` ("RED" when the style or `initial` is absent) |
| `EntitiesVisualizer.PolygonOf` | imagery-cesium/plugins/entities-visualizer/base-entities-visualizer.ts:175-204 | ring 0 is the outline and rings 1..n-1 the holes, in order; outline on; nothing when there is no ring |
| `EntitiesVisualizer.GetPolyline` | imagery-cesium/plugins/entities-visualizer/base-entities-visualizer.ts:156-173 | the converted line with `stroke-width` as width and the stroke colour as material |
| `EntitiesVisualizer.GetPolygon` | imagery-cesium/plugins/entities-visualizer/base-entities-visualizer.ts:186-192 | the loop pushing holes builds exactly the outline-and-holes hierarchy |
| `EntitiesVisualizer.EntityFor` | imagery-cesium/plugins/entities-visualizer/base-entities-visualizer.ts:40-74 | a Point with non-empty icon becomes its billboard, otherwise exactly its `getPoint` graphic; a LineString exactly its `getPolyline` entity; a Polygon exactly its `getPolygon` entity, present iff it has a ring; multi-part and unknown geometries nothing; the id is kept |
| `EntitiesVisualizer.GetOrCreate` | imagery-cesium/plugins/entities-visualizer/base-entities-visualizer.ts:220-231 | the name is tracked and a source created only when the viewer has none of that name; the created source is empty and shown, and every other name keeps its sources; otherwise nothing changes |
| `EntitiesVisualizer.UpdateTracked` | imagery-cesium/plugins/entities-visualizer/base-entities-visualizer.ts:85-90 | the per-source loop never adds or drops a source or a name |
| `EntitiesVisualizer.Processed` | imagery-cesium/plugins/entities-visualizer/base-entities-visualizer.ts:37-40 | the batch runs up to the first entity without a geometry |
| `EntitiesVisualizer.AddStep` | imagery-cesium/plugins/entities-visualizer/base-entities-visualizer.ts:40-78 | one entity tracks at most the name `<guid>_<type>` of its own geometry, drops no tracked name or source, and tracks every source it creates |
| `EntitiesVisualizer.DataSourceNamesDistinct` | imagery-cesium/plugins/entities-visualizer/base-entities-visualizer.ts:221 | `<guid>_<type>` determines the type: different geometry types never share a source |
| `EntitiesVisualizer.AddStepTouchesOwnSource` | imagery-cesium/plugins/entities-visualizer/base-entities-visualizer.ts:40-62 | an entity changes only the source named after its geometry type |
| `EntitiesVisualizer.UnsupportedGeometryIsNoOp` | imagery-cesium/plugins/entities-visualizer/base-entities-visualizer.ts:63-78 | MultiPoint, MultiLineString, MultiPolygon and unknown types add nothing and create no source |
| `EntitiesVisualizer.AddStepAppends` | imagery-cesium/plugins/entities-visualizer/base-entities-visualizer.ts:42-61 | the entity is appended to its type's source unless that source already holds its id or the polygon has no ring |
| `EntitiesVisualizer.AddStepExtends` | imagery-cesium/plugins/entities-visualizer/base-entities-visualizer.ts:42-59 | one entity only appends: every existing source keeps its place, its `show` flag and its entities as a prefix |
| `EntitiesVisualizer.AddAllExtends` | imagery-cesium/plugins/entities-visualizer/base-entities-visualizer.ts:36-82 | the same for a whole batch |
| `EntitiesVisualizer.AddAll` | imagery-cesium/plugins/entities-visualizer/base-entities-visualizer.ts:36-82 | a batch, entity by entity, never removes a tracked name or a viewer source, and every source it creates is tracked |
| `EntitiesVisualizer.AddAllTracksOwnNames` | imagery-cesium/plugins/entities-visualizer/base-entities-visualizer.ts:221-225 | every newly tracked name is `<guid>_<type>` of a Point, LineString or Polygon of the batch |
| `EntitiesVisualizer.WithoutIdContents` | imagery-cesium/plugins/entities-visualizer/base-entities-visualizer.ts:109 | `removeById` keeps exactly the entities with another id |
| `EntitiesVisualizer.WithoutId` | imagery-cesium/plugins/entities-visualizer/base-entities-visualizer.ts:109 | `removeById`: never longer than before, and no entity left carries the id |
| `EntitiesVisualizer.WithoutIdAppend` | imagery-cesium/plugins/entities-visualizer/base-entities-visualizer.ts:109 | the survivors of a concatenation are the survivors of each part, so the kept entities keep their order |
| `EntitiesVisualizer.WithoutUnknownId` | imagery-cesium/plugins/entities-visualizer/base-entities-visualizer.ts:105-112 | removing an unknown id changes nothing |
| `EntitiesVisualizer.ClearEmptiesTracked` | imagery-cesium/plugins/entities-visualizer/base-entities-visualizer.ts:84-91 | tracked single sources are emptied; other sources and all names stay |
| `EntitiesVisualizer.VisibilityKeepsEntities` | imagery-cesium/plugins/entities-visualizer/base-entities-visualizer.ts:119-126 | `show` is set on tracked single sources and no source's entities change |
| `EntitiesVisualizer.RemoveEntityOnlyThatId` | imagery-cesium/plugins/entities-visualizer/base-entities-visualizer.ts:105-112 | in a tracked single source exactly the entities with that id disappear |
| `EntitiesVisualizer.BaseEntitiesVisualizer.constructor` | imagery-cesium/plugins/entities-visualizer/base-entities-visualizer.ts:30-34 | starts with no tracked name |
| `EntitiesVisualizer.BaseEntitiesVisualizer.GetOrCreateDataSource` | imagery-cesium/plugins/entities-visualizer/base-entities-visualizer.ts:220-232 | returns `<guid>_<type>` and updates the scene as `GetOrCreate` says |
| `EntitiesVisualizer.BaseEntitiesVisualizer.AddToDataSource` | imagery-cesium/plugins/entities-visualizer/base-entities-visualizer.ts:44-59 | appends to the first source of that name unless its id is already there; names unchanged |
| `EntitiesVisualizer.BaseEntitiesVisualizer.AddOne` | imagery-cesium/plugins/entities-visualizer/base-entities-visualizer.ts:37-79 | the `forEach` callback changes the scene exactly as one step of the batch |
| `EntitiesVisualizer.BaseEntitiesVisualizer.AddOrUpdateEntities` | imagery-cesium/plugins/entities-visualizer/base-entities-visualizer.ts:36-82 | the scene after the call is each processed entity added in turn; a `null`/`undefined` batch adds nothing and throws; otherwise it completes (yielding true) iff every entity has a geometry |
| `EntitiesVisualizer.BaseEntitiesVisualizer.UpdateTrackedSources` | imagery-cesium/plugins/entities-visualizer/base-entities-visualizer.ts:85-90 | each tracked name resolved to exactly one source is updated once; names unchanged |
| `EntitiesVisualizer.BaseEntitiesVisualizer.ClearEntities` | imagery-cesium/plugins/entities-visualizer/base-entities-visualizer.ts:84-91 | empties the tracked single sources; keeps the name set |
| `EntitiesVisualizer.BaseEntitiesVisualizer.RemoveEntity` | imagery-cesium/plugins/entities-visualizer/base-entities-visualizer.ts:105-112 | removes the id from every tracked single source; keeps the name set |
| `EntitiesVisualizer.BaseEntitiesVisualizer.SetVisibility` | imagery-cesium/plugins/entities-visualizer/base-entities-visualizer.ts:119-126 | sets `show` on every tracked single source; keeps the name set |
| `EntitiesVisualizer.BaseEntitiesVisualizer.SetEntities` | imagery-cesium/plugins/entities-visualizer/base-entities-visualizer.ts:114-117 | `clearEntities` followed by `addOrUpdateEntities`; a `null`/`undefined` batch still clears the tracked sources and then throws |
| `SentinelDate.CreateDateString` | imagery-cesium/mapSourceProviders/cesium-sentinel-source-provider.ts:43-49 | the year as printed, then `-`; for month index 0..11 and day 1..31 exactly six more characters: the padded month (index plus one), `-`, the padded day |
| `SentinelDate.PaddedTwoDigits` | imagery-cesium/mapSourceProviders/cesium-sentinel-source-provider.ts:45-47 | month and day are two digits, one leading '0' below 10, and read back as the number |
| `SentinelDate.DateStringRoundTrip` | imagery-cesium/mapSourceProviders/cesium-sentinel-source-provider.ts:43-49 | for 1000 ≤ Y ≤ 9999, month index 0..11 and day 1..31 the result is a `full-date` of length 10 that splits at '-' into fields reading back as Y, month index + 1 and day |
| `SentinelDate.ShortYearNotPadded` | imagery-cesium/mapSourceProviders/cesium-sentinel-source-provider.ts:47-48 | the year is not padded: year 5 gives `5-01-02` |

## Left out

- Renderer work is left abstract. This covers the graphics objects, `Cartesian3.fromDegrees`, the WGS84 ellipsoid conversion and `Color.fromCssColorString`. They are foreign floating-point code, so they are parameters or opaque values (a colour is the CSS string plus the alpha written over it).
- `addAnnotation` is not modelled beyond presence. The floating marker and the live shape are booleans, without colours, pixel sizes or the `CallbackProperty`, which are renderer detail.
- RxJS streams are simplified. The caller is taken to be subscribed to the stream returned by the latest `startDrawing` only. A caller that stays subscribed to an earlier double-click stream would run `onDrawEnd` again; that is not modelled.
- `getEntities` returns `null` in the code (a TODO), so it has no model. `addInteraction` and `removeInteraction` are empty.
- Numbers are reals. JavaScript NaN appears only where the code produces it, in `parseInt`. Float rounding is not modelled.
- Feature properties are typed. A non-boolean truthy value in a flag property (`"yes" || false`) is not representable.
- The renderer's `dataSources.add` is assumed to register a new source at once, so a later entity of the same batch finds it. Its promise is taken as synchronous. If the renderer registered the source only later, two entities of a new type in one batch would each create a source of that name. `getByName` would then find two, and `clearEntities`, `removeEntity` and `setVisibility` would skip that name. The model does not capture that outcome.
- A renderer refusal is modelled as "nothing added". This applies to a duplicate entity id and to a polygon without a ring: both errors are raised inside a promise callback and lost.
- `dataSources` is a JavaScript `Set`. Its insertion order is dropped because each source is updated independently.
- `DrawAnnotations.GenerateGeometry`: returns `None` for an empty vertex list in Point and Polygon modes. There the code reads `coordinates[0]` or `coordinates[-1]` and builds the geometry around `undefined`. A stray double-click in Polygon mode before any vertex reaches this case.
- `DrawAnnotations.DrawAnnotationsVisualizer.OnClick`: a Point-mode click whose projection failed is reported as `Faulty`. The code hands `undefined` to `cartesianToCoordinates`, and what that produces inside the renderer is not modelled.
- `StyleHelper.GetStrokeWidth`, `StyleHelper.GetShowOutline`, `StyleHelper.GetFillColor`, `StyleHelper.GetStrokeColor`, `StyleHelper.GetLineMaterial`: require `initial` (and the colour string) to be present. The code dereferences them and throws otherwise.
- `GeoToCesium.MultiPolygonCoordinatesToCartesian`: requires every polygon to have an outer ring. The code reads `undefined.length` otherwise.
- Rectangle, circle and arrow drawing, ellipse tessellation, multi-part child ids, style merge and label anchoring are not modelled. None of them exists in this code: multi-part geometries are TODO no-ops there, and other drawing modes produce a feature without geometry.
- The annotation-mode enumeration file is not part of this model. The modes are taken as Point, LineString, Polygon, Circle, Rectangle and Arrow.
