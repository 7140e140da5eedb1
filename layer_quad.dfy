/**
 * The graphics layer's custom-shader-quad records: one that still carries
 * its shader code, and the GPU-uploadable one that does not.
 */
module LayerQuad {
  import opened Core

  type Vec2 = s: seq<real> | |s| == 2 witness [0.0, 0.0]
  type Vec4 = s: seq<real> | |s| == 4 witness [0.0, 0.0, 0.0, 0.0]

  /** A shadered rectangle with a border, together with its shader code. */
  datatype CustomShaderQuadWithCode = CustomShaderQuadWithCode(
    position: Vec2,
    size: Vec2,
    color: Vec4,
    borderColor: Vec4,
    borderRadius: Vec4,
    borderWidth: real,
    mousePosition: Vec2,
    mouseClick: Vec2,
    time: real,
    frame: u32,
    shaderCode: string)

  /** A shadered rectangle with a border, laid out for upload to GPU memory. */
  datatype CustomShaderQuad = CustomShaderQuad(
    position: Vec2,
    size: Vec2,
    color: Vec4,
    borderColor: Vec4,
    borderRadius: Vec4,
    mousePosition: Vec2,
    mouseClick: Vec2,
    time: real,
    frame: u32,
    borderWidth: real)

  /**
   * Size in bytes of one `CustomShaderQuad` record: 23 four-byte fields
   * (2 + 2 + 4 + 4 + 4 + 2 + 2 floats, `time`, `frame`, `border_width`)
   * in C layout, so without padding.
   */
  const CUSTOM_SHADER_QUAD_SIZE: nat := 4 * (2 + 2 + 4 + 4 + 4 + 2 + 2 + 1 + 1 + 1)

  /** `From<&CustomShaderQuadWithCode> for CustomShaderQuad`: copy every field except the shader code. */
  function FromWithCode(q: CustomShaderQuadWithCode): (r: CustomShaderQuad)
    ensures r.position == q.position && r.size == q.size
    ensures r.color == q.color && r.borderColor == q.borderColor && r.borderRadius == q.borderRadius
    ensures r.mousePosition == q.mousePosition && r.mouseClick == q.mouseClick
    ensures r.time == q.time && r.frame == q.frame && r.borderWidth == q.borderWidth
  {
    CustomShaderQuad(
      q.position, q.size, q.color, q.borderColor, q.borderRadius,
      q.mousePosition, q.mouseClick, q.time, q.frame, q.borderWidth)
  }

  /** A record with code attached: the reference inverse of the projection. */
  function WithCode(r: CustomShaderQuad, code: string): CustomShaderQuadWithCode {
    CustomShaderQuadWithCode(
      r.position, r.size, r.color, r.borderColor, r.borderRadius, r.borderWidth,
      r.mousePosition, r.mouseClick, r.time, r.frame, code)
  }

  /** Projecting a record with any code attached gives the record back. */
  lemma ProjectionInvertsWithCode(r: CustomShaderQuad, code: string)
    ensures FromWithCode(WithCode(r, code)) == r
  {
  }

  /** Attaching the dropped code to the projection rebuilds the source record. */
  lemma WithCodeInvertsProjection(q: CustomShaderQuadWithCode)
    ensures WithCode(FromWithCode(q), q.shaderCode) == q
  {
  }

  /**
   * The projection forgets exactly the shader code: two records project to
   * the same value if and only if they agree on every other field.
   */
  lemma ProjectionForgetsOnlyCode(a: CustomShaderQuadWithCode, b: CustomShaderQuadWithCode)
    ensures FromWithCode(a) == FromWithCode(b) <==> a.(shaderCode := b.shaderCode) == b
  {
    if FromWithCode(a) == FromWithCode(b) {
      WithCodeInvertsProjection(a);
      WithCodeInvertsProjection(b);
    }
  }
}
