/**
 * imagery-cesium/plugins/helpers/visualizer-style-helper.ts: how a state
 * style's `initial` options become renderer colours, widths and materials.
 * `Color.fromCssColorString` is the renderer's; a colour is recorded as the
 * CSS string handed to it and the alpha written over it.
 */
module StyleHelper {
  import opened Wrappers
  import opened Js
  import opened HexColor
  import opened GeoTypes

  /** A renderer colour: `Color.fromCssColorString(css)`, then `alpha` assigned when present. */
  datatype Color = Color(css: string, alpha: Option<Num>)

  /** A line material: dashed (`PolylineDashMaterialProperty`) or solid (`ColorMaterialProperty`). */
  datatype Material = Dash(color: Color, dashLength: real) | Solid(color: Color)

  /** `getStrokeWidth`: the `stroke-width` option, or 3 when it is absent or zero. */
  function GetStrokeWidth(style: StateStyle): (width: real)
    requires style.initial.Some?
    ensures TruthyNum(style.initial.value.strokeWidth) ==> width == style.initial.value.strokeWidth.value
    ensures style.initial.value.strokeWidth.None? || style.initial.value.strokeWidth == Some(0.0) ==> width == 3.0
    ensures width != 0.0
  {
    OrNum(style.initial.value.strokeWidth, 3.0)
  }

  /** `getShowOutline`: the outline is hidden exactly when `stroke-opacity` is 0; absent means shown. */
  function GetShowOutline(style: StateStyle): (show: bool)
    requires style.initial.Some?
    ensures !show <==> style.initial.value.strokeOpacity == Some(0.0)
    ensures style.initial.value.strokeOpacity.None? ==> show
  {
    style.initial.value.strokeOpacity != Some(0.0)
  }

  /**
   * `getColor`: the base colour is the first seven characters when the input
   * is `#rrggbbaa`, the whole input otherwise; an explicit opacity (0
   * included) wins over the parsed alpha (`??`); and because `alpha !== NaN`
   * always holds, the fallback to 1 is never taken.
   */
  function GetColor(rgbaColor: string, opacity: Option<real>): (c: Color)
    ensures IsRrggbbaa(rgbaColor) ==> c.css == rgbaColor[..7]
    ensures !IsRrggbbaa(rgbaColor) ==> c.css == rgbaColor
    ensures opacity.Some? ==> c.alpha == Some(Num(opacity.value))
    ensures opacity.None? ==> c.alpha == Some(AlphaSuffix(rgbaColor))
  {
    var alpha := AlphaSuffix(rgbaColor);
    var rootColor := if IsRrggbbaa(rgbaColor) then rgbaColor[..7] else rgbaColor;
    Color(rootColor, Some(if opacity.Some? then Num(opacity.value) else alpha))
  }

  /** `getFillColor`: the `fill` colour with the `fill-opacity` option, both from `initial`. */
  function GetFillColor(style: StateStyle): (c: Color)
    requires style.initial.Some? && style.initial.value.fill.Some?
    ensures var fill := style.initial.value.fill.value;
      c.css == if IsRrggbbaa(fill) then fill[..7] else fill
    ensures var opacity := style.initial.value.fillOpacity;
      c.alpha == Some(if opacity.Some? then Num(opacity.value) else AlphaSuffix(style.initial.value.fill.value))
  {
    GetColor(style.initial.value.fill.value, style.initial.value.fillOpacity)
  }

  /** `getStrokeColor`: the `stroke` colour with the `stroke-opacity` option, both from `initial`. */
  function GetStrokeColor(style: StateStyle): (c: Color)
    requires style.initial.Some? && style.initial.value.stroke.Some?
    ensures var stroke := style.initial.value.stroke.value;
      c.css == if IsRrggbbaa(stroke) then stroke[..7] else stroke
    ensures var opacity := style.initial.value.strokeOpacity;
      c.alpha == Some(if opacity.Some? then Num(opacity.value) else AlphaSuffix(style.initial.value.stroke.value))
  {
    GetColor(style.initial.value.stroke.value, style.initial.value.strokeOpacity)
  }

  /** `getLineMaterial`: dashed with `dashLength = stroke-dasharray` iff that is positive, solid otherwise. */
  function GetLineMaterial(style: StateStyle): (m: Material)
    requires style.initial.Some? && style.initial.value.stroke.Some?
    ensures m.Dash? <==> style.initial.value.strokeDasharray.Some? && style.initial.value.strokeDasharray.value > 0.0
    ensures m.Dash? ==> m.dashLength == style.initial.value.strokeDasharray.value
    ensures m.color == GetStrokeColor(style)
  {
    var color := GetStrokeColor(style);
    var dashLength := style.initial.value.strokeDasharray;
    if dashLength.Some? && dashLength.value > 0.0 then Dash(color, dashLength.value) else Solid(color)
  }

  /** A `#rrggbbaa` colour with no explicit opacity gets the byte `aa` over 255 as alpha, between 0 and 1. */
  lemma RrggbbaaWithoutOpacity(rgbaColor: string)
    requires IsRrggbbaa(rgbaColor)
    ensures GetColor(rgbaColor, None).css == rgbaColor[..7]
    ensures GetColor(rgbaColor, None).alpha == Some(Num(HexValue(rgbaColor[7..]) as real / 255.0))
    ensures 0.0 <= GetColor(rgbaColor, None).alpha.value.value <= 1.0
  {
    RrggbbaaAlpha(rgbaColor);
  }

  /** An explicit opacity of 0 is kept: `??` only replaces `undefined`/`null`. */
  lemma ZeroOpacityWins(rgbaColor: string)
    ensures GetColor(rgbaColor, Some(0.0)).alpha == Some(Num(0.0))
  {
  }

  /**
   * The fallback to alpha 1 is never taken: a `#rrggbb` colour (or any
   * colour of at most seven characters) with no opacity gets NaN as alpha.
   */
  lemma ShortColorGetsNaNAlpha(rgbaColor: string)
    requires |rgbaColor| <= 7
    ensures GetColor(rgbaColor, None) == Color(rgbaColor, Some(NaN))
  {
    ShortColorAlphaIsNaN(rgbaColor);
  }

  /**
   * Fill and stroke colours read only their own two options of `initial`:
   * changing the other pair, or the state style's `opacity`, changes nothing.
   */
  lemma ColorsReadOwnOptions(style: StateStyle, other: StyleSpec, opacity: real)
    requires style.initial.Some? && style.initial.value.fill.Some? && style.initial.value.stroke.Some?
    ensures var fillOnly := style.initial.value.(stroke := other.stroke, strokeOpacity := other.strokeOpacity);
      GetFillColor(StateStyle(opacity, Some(fillOnly))) == GetFillColor(style)
    ensures var strokeOnly := style.initial.value.(fill := other.fill, fillOpacity := other.fillOpacity);
      GetStrokeColor(StateStyle(opacity, Some(strokeOnly))) == GetStrokeColor(style)
  {
  }
}
