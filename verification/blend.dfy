/** Translation of the front end's composite operation into a GL blend tuple
    (`glnvg_convertBlendFuncFactor`, `glnvg__blendCompositeOperation`). */
module BlendModes {
  import opened GlModel
  import opened NvgTypes

  /** The eleven front-end factor codes the backend recognises. */
  predicate KnownFactor(code: int) {
    code in {NvgZero, NvgOne, NvgSrcColor, NvgOneMinusSrcColor, NvgDstColor, NvgOneMinusDstColor,
             NvgSrcAlpha, NvgOneMinusSrcAlpha, NvgDstAlpha, NvgOneMinusDstAlpha, NvgSrcAlphaSaturate}
  }

  /** The front-end code of each GL factor; the reference the translation is
      checked against. */
  function CodeOf(f: BlendFactor): int
    requires f != InvalidEnum
  {
    match f
    case Zero => NvgZero
    case One => NvgOne
    case SrcColor => NvgSrcColor
    case OneMinusSrcColor => NvgOneMinusSrcColor
    case DstColor => NvgDstColor
    case OneMinusDstColor => NvgOneMinusDstColor
    case SrcAlpha => NvgSrcAlpha
    case OneMinusSrcAlpha => NvgOneMinusSrcAlpha
    case DstAlpha => NvgDstAlpha
    case OneMinusDstAlpha => NvgOneMinusDstAlpha
    case SrcAlphaSaturate => NvgSrcAlphaSaturate
  }

  /** One factor: each recognised code becomes its GL counterpart, anything
      else GL_INVALID_ENUM. */
  function ConvertFactor(code: int): (f: BlendFactor)
    ensures f != InvalidEnum <==> KnownFactor(code)
    ensures f != InvalidEnum ==> CodeOf(f) == code
  {
    if code == NvgZero then Zero
    else if code == NvgOne then One
    else if code == NvgSrcColor then SrcColor
    else if code == NvgOneMinusSrcColor then OneMinusSrcColor
    else if code == NvgDstColor then DstColor
    else if code == NvgOneMinusDstColor then OneMinusDstColor
    else if code == NvgSrcAlpha then SrcAlpha
    else if code == NvgOneMinusSrcAlpha then OneMinusSrcAlpha
    else if code == NvgDstAlpha then DstAlpha
    else if code == NvgOneMinusDstAlpha then OneMinusDstAlpha
    else if code == NvgSrcAlphaSaturate then SrcAlphaSaturate
    else InvalidEnum
  }

  /** Translating the code of any GL factor gives that factor back, so the
      translation is a bijection between the recognised codes and the GL
      factors. */
  lemma ConvertCodeOf(f: BlendFactor)
    requires f != InvalidEnum
    ensures ConvertFactor(CodeOf(f)) == f
  {
  }

  /** Premultiplied source-over, used when any factor is unrecognised. */
  const SrcOver: Blend := Blend(One, OneMinusSrcAlpha, One, OneMinusSrcAlpha)

  predicate AllKnown(op: CompositeOp) {
    KnownFactor(op.srcRGB) && KnownFactor(op.dstRGB) && KnownFactor(op.srcAlpha) && KnownFactor(op.dstAlpha)
  }

  /** The four factors translated independently; if any of them is not
      recognised, the whole tuple falls back to source-over. */
  function BlendCompositeOperation(op: CompositeOp): (b: Blend)
    ensures ValidBlend(b)
    ensures AllKnown(op) ==>
      (CodeOf(b.srcRGB) == op.srcRGB && CodeOf(b.dstRGB) == op.dstRGB
       && CodeOf(b.srcAlpha) == op.srcAlpha && CodeOf(b.dstAlpha) == op.dstAlpha)
    ensures !AllKnown(op) ==> b == SrcOver
  {
    var b := Blend(ConvertFactor(op.srcRGB), ConvertFactor(op.dstRGB),
                   ConvertFactor(op.srcAlpha), ConvertFactor(op.dstAlpha));
    if !ValidBlend(b) then SrcOver else b
  }
}
