/**
 * The renderer-facing records: the border radius of a quad, the default
 * style, and the custom-shader-quad primitive a widget records when it draws.
 */
module Renderer {
  import opened Core
  import Shader

  /** Four corner values in the order top-left, top-right, bottom-right, bottom-left (`[f32; 4]`). */
  type Corners = s: seq<real> | |s| == 4 witness [0.0, 0.0, 0.0, 0.0]

  /** The border radii of the corners of a graphics primitive. */
  datatype BorderRadius = BorderRadius(radii: Corners)

  /** The derived `Default`: every corner is `0.0`. */
  function DefaultBorderRadius(): (b: BorderRadius)
    ensures forall k :: 0 <= k < 4 ==> b.radii[k] == 0.0
  {
    BorderRadius([0.0, 0.0, 0.0, 0.0])
  }

  /** `From<f32>`: one radius for all four corners. */
  function FromRadius(w: real): (b: BorderRadius)
    ensures forall k :: 0 <= k < 4 ==> b.radii[k] == w
  {
    BorderRadius([w, w, w, w])
  }

  /** `From<[f32; 4]>`. */
  function FromCorners(radii: Corners): BorderRadius {
    BorderRadius(radii)
  }

  /** `From<BorderRadius> for [f32; 4]`. */
  function ToCorners(b: BorderRadius): Corners {
    b.radii
  }

  /** Corners -> BorderRadius -> corners is the identity. */
  lemma CornersRoundTrip(radii: Corners)
    ensures ToCorners(FromCorners(radii)) == radii
  {
  }

  /** BorderRadius -> corners -> BorderRadius is the identity. */
  lemma BorderRadiusRoundTrip(b: BorderRadius)
    ensures FromCorners(ToCorners(b)) == b
  {
  }

  /** A uniform radius is the four-corner radius with every corner equal to it. */
  lemma FromRadiusAgreesWithCorners(w: real)
    ensures FromRadius(w) == FromCorners([w, w, w, w])
    ensures ToCorners(FromRadius(w)) == [w, w, w, w]
  {
  }

  /** The styling attributes of a renderer. */
  datatype Style = Style(textColor: Color)

  /** `Style::default()`: black text. */
  function DefaultStyle(): (s: Style)
    ensures s.textColor == BLACK
    ensures s.textColor.r == 0.0 && s.textColor.g == 0.0 && s.textColor.b == 0.0 && s.textColor.a == 1.0
  {
    Style(BLACK)
  }

  /**
   * The primitive recorded by `make_custom_shader_quad`. `time` is kept as
   * the widget's `Duration`; its conversion to seconds in `f32` is not modelled.
   */
  datatype CustomShaderQuad = CustomShaderQuad(
    bounds: Rectangle<real>,
    mousePosition: Point,
    mouseClick: bv32,
    time: Duration,
    frameNumber: u32,
    handle: Shader.Handle)
}
