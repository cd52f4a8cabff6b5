/**
 * imagery-cesium/plugins/utils/cesiumToGeo.ts: renderer positions back to
 * GeoJSON positions. The WGS84 ellipsoid conversion and the radian-to-degree
 * step are floating-point work of the renderer, so they are one parameter.
 */
module CesiumToGeo {
  import opened GeoTypes

  /** Longitude and latitude in degrees and the height above the ellipsoid. */
  datatype Geodetic = Geodetic(longitude: real, latitude: real, height: real)

  /** `Ellipsoid.WGS84.cartesianToCartographic` followed by `Math.toDegrees` on both angles. */
  type ToGeodetic = Cartesian3 -> Geodetic

  /** `cartesianToCoordinates`: every position becomes `[lon, lat, alt]`, in input order. */
  function CartesianToCoordinates(toGeodetic: ToGeodetic, positions: seq<Cartesian3>): (r: seq<Position>)
    ensures |r| == |positions|
    ensures forall i :: 0 <= i < |r| ==> |r[i]| == 3
  {
    seq(|positions|, i requires 0 <= i < |positions| =>
      var g := toGeodetic(positions[i]);
      [g.longitude, g.latitude, g.height])
  }

  /** Element `i` of the output depends on element `i` of the input alone. */
  lemma CoordinatesPointwise(toGeodetic: ToGeodetic, positions: seq<Cartesian3>, i: nat)
    requires i < |positions|
    ensures CartesianToCoordinates(toGeodetic, positions)[i] == CartesianToCoordinates(toGeodetic, [positions[i]])[0]
  {
  }
}
