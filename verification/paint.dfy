/** Paint conversion (`glnvg__convertPaint`): a paint, a scissor and stroke
    parameters become one fragment-uniform block.

    Only the branching is modelled exactly: the no-scissor sentinel, the shader
    and texture-kind selection, the vertical-flip correction and the failure on
    an unknown image. Transform algebra, `sqrtf` and float division go through
    the uninterpreted `FloatOps`.
 */
module PaintConversion {
  import opened NvgTypes
  import opened Textures

  /** Shader variants, in the order of `GLNVGshaderType`; a zero-filled block
      reads as `FillGrad`. */
  datatype ShaderType = FillGrad | FillImg | Simple | Img

  /** `GLNVGfragUniforms`. The two matrices are three rows of four floats. */
  datatype FragUniforms = FragUniforms(
    scissorMat: seq<real>,
    paintMat: seq<real>,
    innerCol: Color,
    outerCol: Color,
    scissorExtW: real,
    scissorExtH: real,
    scissorScaleX: real,
    scissorScaleY: real,
    extentW: real,
    extentH: real,
    radius: real,
    feather: real,
    strokeMult: real,
    strokeThr: real,
    texType: int,
    shaderType: ShaderType)

  /** Byte size of `GLNVGfragUniforms`: 24 floats of matrices, 8 of colours,
      6 of extents and scales, 4 scalars, then two ints. */
  const FragUniformsSize: int := 176

  const ZeroMat: seq<real> := [0.0, 0.0, 0.0, 0.0, 0.0, 0.0, 0.0, 0.0, 0.0, 0.0, 0.0, 0.0]

  const ZeroColor: Color := Color(0.0, 0.0, 0.0, 0.0)

  /** A block after `memset(frag, 0, sizeof(*frag))`. */
  const ZeroFrag: FragUniforms :=
    FragUniforms(ZeroMat, ZeroMat, ZeroColor, ZeroColor,
                 0.0, 0.0, 0.0, 0.0, 0.0, 0.0, 0.0, 0.0, 0.0, 0.0, 0, FillGrad)

  /** The block `renderFill` writes for its stencil pass: zeroed, simple
      shader, no stroke threshold. */
  const SimpleFrag: FragUniforms := ZeroFrag.(strokeThr := -1.0, shaderType := Simple)

  /** Reads the affine transform back out of a padded 3x4 matrix. */
  function Mat3x4ToXform(m: seq<real>): Xform
    requires |m| == 12
  {
    Xform(m[0], m[1], m[4], m[5], m[8], m[9])
  }

  /** `glnvg__xformToMat3x4`: each column of the 2x3 affine becomes a row of
      four floats; the padding is that of a 3x3 matrix with last row
      (0, 0, 1), stored with a fourth zero column. */
  function XformToMat3x4(t: Xform): (m: seq<real>)
    ensures |m| == 12
    ensures Mat3x4ToXform(m) == t
    ensures m[2] == 0.0 && m[3] == 0.0 && m[6] == 0.0 && m[7] == 0.0 && m[10] == 1.0 && m[11] == 0.0
  {
    [t.a, t.b, 0.0, 0.0, t.c, t.d, 0.0, 0.0, t.e, t.f, 1.0, 0.0]
  }

  /** The expansion loses nothing: two transforms with the same matrix are
      the same transform. */
  lemma XformToMat3x4Injective(t: Xform, u: Xform)
    ensures XformToMat3x4(t) == XformToMat3x4(u) <==> t == u
  {
    if XformToMat3x4(t) == XformToMat3x4(u) {
      assert Mat3x4ToXform(XformToMat3x4(t)) == Mat3x4ToXform(XformToMat3x4(u));
    }
  }

  /** A scissor extent below -0.5 on either axis means "no scissor". */
  predicate NoScissor(sc: Scissor) {
    sc.extentW < -0.5 || sc.extentH < -0.5
  }

  /** The scissor's scale along one axis in fringe widths: the length of one
      row of its linear part (`a, c` for x, `b, d` for y, in nanovg's
      `[a c e; b d f]` layout), divided by the fringe width. */
  function ScaleOf(ops: FloatOps, p: real, q: real, fringe: real): real {
    ops.div(ops.sqrt(p * p + q * q), fringe)
  }

  /** The texture-kind tag the image shader reads: 0 premultiplied RGBA,
      1 straight RGBA, 2 single-channel alpha. */
  function TexKind(tex: Texture): (k: int)
    ensures k == 0 <==> tex.pixelType == TextureRgba && tex.flags.premultiplied
    ensures k == 1 <==> tex.pixelType == TextureRgba && !tex.flags.premultiplied
    ensures k == 2 <==> tex.pixelType != TextureRgba
  {
    if tex.pixelType == TextureRgba then (if tex.flags.premultiplied then 0 else 1) else 2
  }

  /** The paint transform of a vertically flipped image: translate by half the
      extent height, flip the y axis, translate back, composed with the paint
      transform in the front end's multiplication order. */
  function FlippedPaintXform(ops: FloatOps, paint: Paint): Xform {
    var m1 := ops.multiply(ops.translate(0.0, paint.extentH * 0.5), paint.xform);
    var m2 := ops.multiply(ops.scale(1.0, -1.0), m1);
    ops.multiply(ops.translate(0.0, -paint.extentH * 0.5), m2)
  }

  /** `glnvg__convertPaint`. Returns whether it succeeded and the block it
      wrote; on an unknown image it stops half-way, leaving the shader type,
      texture kind and paint matrix zeroed. */
  function ConvertPaint(textures: map<int, Texture>, paint: Paint, scissor: Scissor,
                        width: real, fringe: real, strokeThr: real, ops: FloatOps)
    : (r: (bool, FragUniforms))
    ensures r.0 <==> paint.image == 0 || paint.image in textures
    ensures r.1.innerCol == Premul(paint.innerColor) && r.1.outerCol == Premul(paint.outerColor)
    ensures NoScissor(scissor) ==>
      && r.1.scissorMat == ZeroMat
      && r.1.scissorExtW == 1.0 && r.1.scissorExtH == 1.0
      && r.1.scissorScaleX == 1.0 && r.1.scissorScaleY == 1.0
    ensures !NoScissor(scissor) ==>
      && r.1.scissorMat == XformToMat3x4(ops.inverse(scissor.xform))
      && r.1.scissorExtW == scissor.extentW && r.1.scissorExtH == scissor.extentH
      && r.1.scissorScaleX == ScaleOf(ops, scissor.xform.a, scissor.xform.c, fringe)
      && r.1.scissorScaleY == ScaleOf(ops, scissor.xform.b, scissor.xform.d, fringe)
    ensures r.1.extentW == paint.extentW && r.1.extentH == paint.extentH
    ensures r.1.strokeThr == strokeThr
    ensures r.1.strokeMult == ops.div(width * 0.5 + fringe * 0.5, fringe)
    ensures paint.image == 0 ==>
      && r.1.shaderType == FillGrad && r.1.texType == 0
      && r.1.radius == paint.radius && r.1.feather == paint.feather
      && r.1.paintMat == XformToMat3x4(ops.inverse(paint.xform))
    ensures paint.image != 0 && paint.image in textures ==>
      && r.1.shaderType == FillImg
      && r.1.texType == TexKind(textures[paint.image])
      && r.1.radius == 0.0 && r.1.feather == 0.0
      && r.1.paintMat == XformToMat3x4(ops.inverse(
           if textures[paint.image].flags.flipY then FlippedPaintXform(ops, paint) else paint.xform))
    ensures paint.image != 0 && paint.image !in textures ==>
      && r.1.shaderType == FillGrad && r.1.texType == 0
      && r.1.radius == 0.0 && r.1.feather == 0.0
      && r.1.paintMat == ZeroMat
  {
    var colored := ZeroFrag.(innerCol := Premul(paint.innerColor), outerCol := Premul(paint.outerColor));
    var scissored :=
      if NoScissor(scissor) then
        colored.(scissorMat := ZeroMat, scissorExtW := 1.0, scissorExtH := 1.0,
                 scissorScaleX := 1.0, scissorScaleY := 1.0)
      else
        var x := scissor.xform;
        colored.(scissorMat := XformToMat3x4(ops.inverse(x)),
                 scissorExtW := scissor.extentW, scissorExtH := scissor.extentH,
                 scissorScaleX := ScaleOf(ops, x.a, x.c, fringe),
                 scissorScaleY := ScaleOf(ops, x.b, x.d, fringe));
    var frag := scissored.(extentW := paint.extentW, extentH := paint.extentH,
                           strokeMult := ops.div(width * 0.5 + fringe * 0.5, fringe),
                           strokeThr := strokeThr);
    if paint.image != 0 then
      if paint.image !in textures then (false, frag)
      else
        var tex := textures[paint.image];
        var inv := ops.inverse(if tex.flags.flipY then FlippedPaintXform(ops, paint) else paint.xform);
        (true, frag.(shaderType := FillImg, texType := TexKind(tex), paintMat := XformToMat3x4(inv)))
    else
      (true, frag.(shaderType := FillGrad, radius := paint.radius, feather := paint.feather,
                   paintMat := XformToMat3x4(ops.inverse(paint.xform))))
  }

  /** With the no-scissor sentinel, nothing else about the scissor reaches the
      block: any two such scissors give the same result. */
  lemma NoScissorIgnoresTransform(textures: map<int, Texture>, paint: Paint, s1: Scissor, s2: Scissor,
                                  width: real, fringe: real, strokeThr: real, ops: FloatOps)
    requires NoScissor(s1) && NoScissor(s2)
    ensures ConvertPaint(textures, paint, s1, width, fringe, strokeThr, ops)
         == ConvertPaint(textures, paint, s2, width, fringe, strokeThr, ops)
  {
  }

  /** Colours written by a conversion are premultiplied: for colours in the
      unit range, no channel exceeds alpha. */
  lemma ConvertedColorsPremultiplied(textures: map<int, Texture>, paint: Paint, scissor: Scissor,
                                     width: real, fringe: real, strokeThr: real, ops: FloatOps)
    requires UnitColor(paint.innerColor) && UnitColor(paint.outerColor)
    ensures var f := ConvertPaint(textures, paint, scissor, width, fringe, strokeThr, ops).1;
      && f.innerCol.r <= f.innerCol.a && f.innerCol.g <= f.innerCol.a && f.innerCol.b <= f.innerCol.a
      && f.outerCol.r <= f.outerCol.a && f.outerCol.g <= f.outerCol.a && f.outerCol.b <= f.outerCol.a
  {
    PremulBelowAlpha(paint.innerColor);
    PremulBelowAlpha(paint.outerColor);
  }
}
