/** The OpenGL side of the backend, as an abstract command trace.

    Every GL call the backend issues becomes one `Cmd` appended to a trace.
    `Step`/`Run` give the trace a meaning of its own: they replay it over the
    small part of the GL pipeline state the backend relies on (stencil, colour
    mask, culling, blend, bound texture, bound uniform range, pixel-unpack
    parameters). `Effects` lists the commands that touch pixels, texture
    objects or buffer contents (draws, buffer uploads, texture uploads and
    texture parameters) together with the state they run under; ordering and
    elision properties of the backend are stated against it.
 */
module GlModel {

  datatype Capability = CullFaceCap | BlendCap | DepthTestCap | ScissorTestCap | StencilTestCap

  datatype Face = Front | Back

  datatype StencilFunc = FuncUnset | Always | Equal | NotEqual

  datatype StencilOp = Keep | OpZero | Incr | IncrWrap | DecrWrap

  /** The three stencil operations of one face: on stencil fail, depth fail, pass. */
  datatype StencilOps = StencilOps(sfail: StencilOp, dpfail: StencilOp, dppass: StencilOp)

  datatype Primitive = TriangleFan | TriangleStrip | Triangles

  datatype BlendFactor =
    | Zero | One
    | SrcColor | OneMinusSrcColor | DstColor | OneMinusDstColor
    | SrcAlpha | OneMinusSrcAlpha | DstAlpha | OneMinusDstAlpha
    | SrcAlphaSaturate
    | InvalidEnum

  /** Separate source/destination factors for the RGB and alpha channels. */
  datatype Blend = Blend(srcRGB: BlendFactor, dstRGB: BlendFactor, srcAlpha: BlendFactor, dstAlpha: BlendFactor)

  /** A blend tuple that GL accepts: none of its four factors is GL_INVALID_ENUM. */
  predicate ValidBlend(b: Blend) {
    b.srcRGB != InvalidEnum && b.dstRGB != InvalidEnum && b.srcAlpha != InvalidEnum && b.dstAlpha != InvalidEnum
  }

  datatype BufferTarget = ArrayBuffer | UniformBuffer

  datatype TexFilter = Nearest | Linear | NearestMipmapNearest | LinearMipmapLinear

  datatype TexWrap = Repeat | ClampToEdge

  datatype PixelFormat = FormatRgba | FormatRed

  datatype PixelStoreParam = UnpackAlignment | UnpackRowLength | UnpackSkipPixels | UnpackSkipRows

  /** Stencil masks used by the backend. */
  const FullMask: int := 0xffff_ffff
  const ByteMask: int := 0xff

  /** Texture parameters set with `glTexParameteri`. */
  datatype TexParam =
    | MinFilter(filter: TexFilter)
    | MagFilter(filter: TexFilter)
    | WrapS(wrap: TexWrap)
    | WrapT(wrap: TexWrap)

  /** GL calls that change none of the state the backend's protocols read. */
  datatype InertCmd =
    | CullFaceBack
    | FrontFaceCcw
    | UseShader
    | UseProgramNone
    | SetTextureAndView(unit: int, viewW: real, viewH: real)
    | GenVertexArray(vao: int)
    | GenBuffer(buffer: int)
    | BindVertexArray(vao: int)
    | BindBuffer(target: BufferTarget, buffer: int)
    | EnableVertexAttribArray(index: int)
    | DisableVertexAttribArray(index: int)
    | VertexAttribPointer(index: int, byteOffset: int)
    | ActiveTexture0
    | GenTexture(handle: int)
    | DeleteTexture(handle: int)
    | Finish

  datatype Cmd =
    | Enable(cap: Capability)
    | Disable(cap: Capability)
    | ColorMask(on: bool)
    | StencilMaskCmd(mask: int)
    | StencilOpBoth(ops: StencilOps)
    | StencilOpSeparate(face: Face, ops: StencilOps)
    | StencilFuncCmd(func: StencilFunc, ref: int, fmask: int)
    | BlendFuncSeparate(blend: Blend)
    | BindTexture(handle: int)
    | BindBufferRange(offset: int, size: int)
    | PixelStore(param: PixelStoreParam, value: int)
    | BufferData(target: BufferTarget, bytes: int)
    | TexImage2D(format: PixelFormat, width: int, height: int)
    | TexSubImage2D(format: PixelFormat, x: int, y: int, width: int, height: int)
    | TexParameter(texParam: TexParam)
    | GenerateMipmap
    | DrawArrays(mode: Primitive, first: int, count: int)
    | Gl(inert: InertCmd)

  /** The pixel-unpack parameters consulted by texture uploads. */
  datatype Unpack = Unpack(alignment: int, rowLength: int, skipPixels: int, skipRows: int)

  /** GL's initial unpack parameters: 4-byte rows, tightly packed, from row 0. */
  const DefaultUnpack: Unpack := Unpack(4, 0, 0, 0)

  /** The part of the GL pipeline state the backend's protocols depend on. */
  datatype GlState = GlState(
    stencilTest: bool,
    cullFace: bool,
    colorMask: bool,
    stencilMask: int,
    func: StencilFunc,
    funcRef: int,
    funcMask: int,
    front: StencilOps,
    back: StencilOps,
    texture: int,
    blend: Blend,
    uniformOffset: int,
    unpack: Unpack)

  function SetCap(s: GlState, cap: Capability, on: bool): GlState {
    match cap
    case CullFaceCap => s.(cullFace := on)
    case StencilTestCap => s.(stencilTest := on)
    case _ => s
  }

  function SetUnpack(u: Unpack, p: PixelStoreParam, v: int): Unpack {
    match p
    case UnpackAlignment => u.(alignment := v)
    case UnpackRowLength => u.(rowLength := v)
    case UnpackSkipPixels => u.(skipPixels := v)
    case UnpackSkipRows => u.(skipRows := v)
  }

  /** The state after one command. */
  function Step(s: GlState, c: Cmd): GlState {
    match c
    case Enable(cap) => SetCap(s, cap, true)
    case Disable(cap) => SetCap(s, cap, false)
    case ColorMask(on) => s.(colorMask := on)
    case StencilMaskCmd(m) => s.(stencilMask := m)
    case StencilOpBoth(ops) => s.(front := ops, back := ops)
    case StencilOpSeparate(face, ops) => if face == Front then s.(front := ops) else s.(back := ops)
    case StencilFuncCmd(f, r, m) => s.(func := f, funcRef := r, funcMask := m)
    case BlendFuncSeparate(b) => s.(blend := b)
    case BindTexture(h) => s.(texture := h)
    case BindBufferRange(off, _) => s.(uniformOffset := off)
    case PixelStore(p, v) => s.(unpack := SetUnpack(s.unpack, p, v))
    case _ => s
  }

  /** The state after a whole trace. */
  function Run(s: GlState, t: seq<Cmd>): GlState
    decreases |t|
  {
    if |t| == 0 then s else Run(Step(s, t[0]), t[1..])
  }

  /** Commands whose outcome depends on the state they run under. */
  predicate IsEffect(c: Cmd) {
    || c.DrawArrays? || c.BufferData?
    || c.TexImage2D? || c.TexSubImage2D? || c.TexParameter? || c.GenerateMipmap?
  }

  /** An effectful command together with the state it ran under. */
  datatype Effect = Effect(state: GlState, cmd: Cmd)

  /** The effectful commands of a trace, in order, with the state each ran under. */
  function Effects(s: GlState, t: seq<Cmd>): seq<Effect>
    decreases |t|
  {
    if |t| == 0 then []
    else (if IsEffect(t[0]) then [Effect(s, t[0])] else []) + Effects(Step(s, t[0]), t[1..])
  }

  /** Replaying a concatenation is replaying the parts in turn. */
  lemma {:induction false} RunAppend(s: GlState, a: seq<Cmd>, b: seq<Cmd>)
    ensures Run(s, a + b) == Run(Run(s, a), b)
    ensures Effects(s, a + b) == Effects(s, a) + Effects(Run(s, a), b)
    decreases |a|
  {
    if |a| == 0 {
      assert a + b == b;
    } else {
      assert (a + b)[0] == a[0];
      assert (a + b)[1..] == a[1..] + b;
      RunAppend(Step(s, a[0]), a[1..], b);
    }
  }

  /** Replaying a trace that starts with `c` is one step, then the rest. */
  lemma RunCons(s: GlState, c: Cmd, t: seq<Cmd>)
    ensures Run(s, [c] + t) == Run(Step(s, c), t)
    ensures Effects(s, [c] + t) == (if IsEffect(c) then [Effect(s, c)] else []) + Effects(Step(s, c), t)
  {
    assert ([c] + t)[0] == c;
    assert ([c] + t)[1..] == t;
  }

  /** A single command replays as one step. */
  lemma RunOne(s: GlState, c: Cmd)
    ensures Run(s, [c]) == Step(s, c)
    ensures Effects(s, [c]) == if IsEffect(c) then [Effect(s, c)] else []
  {
    assert [c][1..] == [];
  }

  /** A trace made only of draws leaves the state alone, and every draw runs
      under the state the trace started in. */
  predicate AllDraws(t: seq<Cmd>) {
    forall k :: 0 <= k < |t| ==> t[k].DrawArrays?
  }

  lemma {:induction false} DrawsOnly(s: GlState, t: seq<Cmd>)
    requires AllDraws(t)
    ensures Run(s, t) == s
    ensures |Effects(s, t)| == |t|
    ensures forall k :: 0 <= k < |t| ==> Effects(s, t)[k] == Effect(s, t[k])
    decreases |t|
  {
    if |t| > 0 {
      assert AllDraws(t[1..]) by {
        forall k | 0 <= k < |t[1..]| ensures t[1..][k].DrawArrays? {
          assert t[1..][k] == t[k + 1];
        }
      }
      DrawsOnly(s, t[1..]);
    }
  }

  /** A trace without effectful commands produces no effects. */
  predicate NoEffects(t: seq<Cmd>) {
    forall k :: 0 <= k < |t| ==> !IsEffect(t[k])
  }

  lemma {:induction false} QuietTrace(s: GlState, t: seq<Cmd>)
    requires NoEffects(t)
    ensures Effects(s, t) == []
    decreases |t|
  {
    if |t| > 0 {
      assert NoEffects(t[1..]) by {
        forall k | 0 <= k < |t[1..]| ensures !IsEffect(t[1..][k]) {
          assert t[1..][k] == t[k + 1];
        }
      }
      QuietTrace(Step(s, t[0]), t[1..]);
    }
  }
}
