/**
 * imagery-cesium/plugins/utils/geoToCesium.ts: GeoJSON coordinate arrays to
 * renderer positions. The per-position conversion `Cartesian3.fromDegrees`
 * belongs to the renderer and is a parameter here.
 */
module GeoToCesium {
  import opened Wrappers
  import opened GeoTypes

  /** `Cartesian3.fromDegrees(longitude, latitude, height)`; an argument may be `undefined`. */
  type FromDegrees = (Option<real>, Option<real>, Option<real>) -> Cartesian3

  /** `p[i]` in JavaScript: `undefined` past the end. */
  function Component(p: Position, i: nat): Option<real> {
    if i < |p| then Some(p[i]) else None
  }

  /** `coordinatesToCartesian`: passes components 0, 1 and 2 to the renderer's conversion. */
  function CoordinatesToCartesian(fromDegrees: FromDegrees, p: Position): (r: Cartesian3)
    ensures |p| >= 3 ==> r == fromDegrees(Some(p[0]), Some(p[1]), Some(p[2]))
    ensures |p| == 2 ==> r == fromDegrees(Some(p[0]), Some(p[1]), None)
  {
    fromDegrees(Component(p, 0), Component(p, 1), Component(p, 2))
  }

  /** The converted list, position by position; the specification of the three loops below. */
  function ConvertAll(fromDegrees: FromDegrees, ps: seq<Position>): seq<Cartesian3> {
    seq(|ps|, i requires 0 <= i < |ps| => CoordinatesToCartesian(fromDegrees, ps[i]))
  }

  /** Only components 0, 1 and 2 of a position are read: further ones (a measure, say) change nothing. */
  lemma ExtraComponentsIgnored(fromDegrees: FromDegrees, p: Position, extra: seq<real>)
    requires |p| == 3
    ensures CoordinatesToCartesian(fromDegrees, p + extra) == CoordinatesToCartesian(fromDegrees, p)
    ensures CoordinatesToCartesian(fromDegrees, p) == fromDegrees(Some(p[0]), Some(p[1]), Some(p[2]))
  {
  }

  /** A two-component position is converted with an `undefined` height. */
  lemma MissingHeightIsUndefined(fromDegrees: FromDegrees, p: Position)
    requires |p| == 2
    ensures CoordinatesToCartesian(fromDegrees, p) == fromDegrees(Some(p[0]), Some(p[1]), None)
  {
  }

  /** Converting a concatenation converts each part. */
  lemma ConvertAllAppend(fromDegrees: FromDegrees, a: seq<Position>, b: seq<Position>)
    ensures ConvertAll(fromDegrees, a + b) == ConvertAll(fromDegrees, a) + ConvertAll(fromDegrees, b)
  {
    var l, r := ConvertAll(fromDegrees, a + b), ConvertAll(fromDegrees, a) + ConvertAll(fromDegrees, b);
    assert |l| == |r|;
    forall i | 0 <= i < |l| ensures l[i] == r[i] {
      if i < |a| {
        assert (a + b)[i] == a[i];
      } else {
        assert (a + b)[i] == b[i - |a|];
      }
    }
  }

  /** `coordinatesArrayToCartesian`: one converted position per input position, in order. */
  method CoordinatesArrayToCartesian(fromDegrees: FromDegrees, coordinates: seq<Position>)
    returns (result: seq<Cartesian3>)
    ensures |result| == |coordinates|
    ensures forall i :: 0 <= i < |coordinates| ==> result[i] == CoordinatesToCartesian(fromDegrees, coordinates[i])
    ensures result == ConvertAll(fromDegrees, coordinates)
  {
    result := [];
    for i := 0 to |coordinates|
      invariant |result| == i
      invariant forall j :: 0 <= j < i ==> result[j] == CoordinatesToCartesian(fromDegrees, coordinates[j])
    {
      result := result + [CoordinatesToCartesian(fromDegrees, coordinates[i])];
    }
  }

  /**
   * `multiLineToCartesian`: despite its name it converts a flat list of
   * positions, exactly as `coordinatesArrayToCartesian` does.
   */
  method MultiLineToCartesian(fromDegrees: FromDegrees, coordinates: seq<Position>)
    returns (result: seq<Cartesian3>)
    ensures |result| == |coordinates|
    ensures forall i :: 0 <= i < |coordinates| ==> result[i] == CoordinatesToCartesian(fromDegrees, coordinates[i])
    ensures result == ConvertAll(fromDegrees, coordinates)
  {
    result := [];
    for i := 0 to |coordinates|
      invariant |result| == i
      invariant forall j :: 0 <= j < i ==> result[j] == CoordinatesToCartesian(fromDegrees, coordinates[j])
    {
      result := result + [CoordinatesToCartesian(fromDegrees, coordinates[i])];
    }
  }

  /** `polygonCoordinatesToCartesian`: one ring, converted as a flat list. */
  method PolygonCoordinatesToCartesian(fromDegrees: FromDegrees, ring: seq<Position>)
    returns (result: seq<Cartesian3>)
    ensures |result| == |ring|
    ensures result == ConvertAll(fromDegrees, ring)
  {
    result := CoordinatesArrayToCartesian(fromDegrees, ring);
  }

  /**
   * `multiPolygonCoordinatesToCartesian`: one converted ring per polygon,
   * taken from that polygon's outer ring; holes are dropped. A polygon with
   * no ring at all makes the source read `undefined.length`, so every
   * polygon must have one.
   */
  method MultiPolygonCoordinatesToCartesian(fromDegrees: FromDegrees, polygons: seq<seq<seq<Position>>>)
    returns (result: seq<seq<Cartesian3>>)
    requires forall i :: 0 <= i < |polygons| ==> |polygons[i]| > 0
    ensures |result| == |polygons|
    ensures forall i :: 0 <= i < |polygons| ==> result[i] == ConvertAll(fromDegrees, polygons[i][0])
  {
    result := [];
    for i := 0 to |polygons|
      invariant |result| == i
      invariant forall j :: 0 <= j < i ==> result[j] == ConvertAll(fromDegrees, polygons[j][0])
    {
      var outer := CoordinatesArrayToCartesian(fromDegrees, polygons[i][0]);
      result := result + [outer];
    }
  }
}
