/** The front-end types the backend consumes: paints, scissors, tessellated
    paths, composite operations and the flag sets of contexts and images.

    Floats are modelled as reals. The transform helpers of the front end
    (inverse, multiply, translate, scale), `sqrtf` and float division live
    outside the backend; they enter the model as the uninterpreted total
    functions of a `FloatOps` record, so that the backend's branching can be
    stated without committing to their numerics.
 */
module NvgTypes {

  /** A 2x3 affine transform `[a b c d e f]`, stored as the front end's `float[6]`. */
  datatype Xform = Xform(a: real, b: real, c: real, d: real, e: real, f: real)

  datatype Color = Color(r: real, g: real, b: real, a: real)

  /** The front end's transform helpers and float primitives, left uninterpreted. */
  datatype FloatOps = FloatOps(
    inverse: Xform -> Xform,
    multiply: (Xform, Xform) -> Xform,
    translate: (real, real) -> Xform,
    scale: (real, real) -> Xform,
    sqrt: real -> real,
    div: (real, real) -> real)

  datatype Paint = Paint(
    xform: Xform,
    extentW: real,
    extentH: real,
    radius: real,
    feather: real,
    innerColor: Color,
    outerColor: Color,
    image: int)

  datatype Scissor = Scissor(xform: Xform, extentW: real, extentH: real)

  /** A vertex: position and texture coordinate (`NVGvertex`, 16 bytes). */
  datatype Vertex = Vertex(x: real, y: real, u: real, v: real)

  /** Byte size of one vertex: four floats. */
  const VertexSize: int := 16

  /** One tessellated sub-path as the backend sees it: its fill fan, its
      stroke/fringe strip, and whether it is convex. */
  datatype NvgPath = NvgPath(fill: seq<Vertex>, stroke: seq<Vertex>, convex: bool)

  /** The four blend factors of a composite operation, as the front end's codes. */
  datatype CompositeOp = CompositeOp(srcRGB: int, dstRGB: int, srcAlpha: int, dstAlpha: int)

  /** Front-end blend factor codes (nanovg's `NVGblendFactor`: one bit each). */
  const NvgZero: int := 1
  const NvgOne: int := 2
  const NvgSrcColor: int := 4
  const NvgOneMinusSrcColor: int := 8
  const NvgDstColor: int := 16
  const NvgOneMinusDstColor: int := 32
  const NvgSrcAlpha: int := 64
  const NvgOneMinusSrcAlpha: int := 128
  const NvgDstAlpha: int := 256
  const NvgOneMinusDstAlpha: int := 512
  const NvgSrcAlphaSaturate: int := 1024

  /** Flags the context is created with. */
  datatype CreateFlags = CreateFlags(antialias: bool, stencilStrokes: bool, debug: bool)

  /** Image flags; `noDelete` marks a GL texture the backend does not own. */
  datatype ImageFlags = ImageFlags(
    generateMipmaps: bool,
    repeatX: bool,
    repeatY: bool,
    flipY: bool,
    premultiplied: bool,
    nearest: bool,
    noDelete: bool)

  const NoImageFlags: ImageFlags := ImageFlags(false, false, false, false, false, false, false)

  /** Texture pixel types: single-channel alpha or RGBA. */
  datatype PixelType = TextureAlpha | TextureRgba

  /** Premultiplies the colour channels by alpha, leaving alpha alone. */
  function Premul(c: Color): (p: Color)
    ensures p.a == c.a
    ensures c.a == 1.0 ==> p == c
    ensures c.a == 0.0 ==> p.r == 0.0 && p.g == 0.0 && p.b == 0.0
  {
    Color(c.r * c.a, c.g * c.a, c.b * c.a, c.a)
  }

  /** Colours with channels and alpha in [0, 1]. */
  predicate UnitColor(c: Color) {
    0.0 <= c.r <= 1.0 && 0.0 <= c.g <= 1.0 && 0.0 <= c.b <= 1.0 && 0.0 <= c.a <= 1.0
  }

  /** A premultiplied colour never has a channel above its alpha. */
  lemma PremulBelowAlpha(c: Color)
    requires UnitColor(c)
    ensures var p := Premul(c); 0.0 <= p.r <= p.a && 0.0 <= p.g <= p.a && 0.0 <= p.b <= p.a
  {
    MulBelow(c.r, c.a);
    MulBelow(c.g, c.a);
    MulBelow(c.b, c.a);
  }

  lemma MulBelow(x: real, a: real)
    requires 0.0 <= x <= 1.0 && 0.0 <= a
    ensures 0.0 <= x * a <= a
  {
    assert a - x * a == (1.0 - x) * a;
  }
}
