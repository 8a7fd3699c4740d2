/** The dispatcher (`render`, `glnvg__fill`, `glnvg__convexFill`,
    `glnvg__stroke`, `glnvg__triangles` and the cached-state setters).

    Every GL call becomes a `Cmd` appended to the trace the functions return;
    the dispatcher's cache is threaded through explicitly. Properties are
    stated against the trace's replay (`Run`, `Effects`): which state each
    draw runs under, and what state is left behind.
 */
module Dispatcher {
  import opened GlModel
  import opened NvgTypes
  import opened Textures
  import opened PaintConversion
  import opened GlContext

  /** The cache describes the GL state: every cached field equals its GL
      counterpart, except that a blend containing GL_INVALID_ENUM (the reset
      value) describes nothing. */
  predicate Coherent(cache: Cache, s: GlState) {
    && cache.boundTexture == s.texture
    && cache.stencilMask == s.stencilMask
    && cache.func == s.func && cache.funcRef == s.funcRef && cache.funcMask == s.funcMask
    && (ValidBlend(cache.blend) ==> cache.blend == s.blend)
  }

  // ---------------------------------------------------------------------
  // Cached setters: a GL call only when the request differs from the cache.

  /** `glnvg__bindTexture`. */
  function SetTexture(cache: Cache, tex: int): (r: (Cache, seq<Cmd>))
    ensures r.0 == cache.(boundTexture := tex)
    ensures r.1 == [] || r.1 == [BindTexture(tex)]
    ensures r.1 != [] <==> cache.boundTexture != tex
  {
    if cache.boundTexture != tex then (cache.(boundTexture := tex), [BindTexture(tex)]) else (cache, [])
  }

  /** `glnvg__stencilMask`. */
  function SetStencilMask(cache: Cache, mask: int): (r: (Cache, seq<Cmd>))
    ensures r.0 == cache.(stencilMask := mask)
    ensures r.1 == [] || r.1 == [StencilMaskCmd(mask)]
    ensures r.1 != [] <==> cache.stencilMask != mask
  {
    if cache.stencilMask != mask then (cache.(stencilMask := mask), [StencilMaskCmd(mask)]) else (cache, [])
  }

  /** `glnvg__stencilFunc`: compares function, reference and mask together. */
  function SetStencilFunc(cache: Cache, func: StencilFunc, ref: int, mask: int): (r: (Cache, seq<Cmd>))
    ensures r.0 == cache.(func := func, funcRef := ref, funcMask := mask)
    ensures r.1 == [] || r.1 == [StencilFuncCmd(func, ref, mask)]
    ensures r.1 != [] <==> (cache.func != func || cache.funcRef != ref || cache.funcMask != mask)
  {
    if cache.func != func || cache.funcRef != ref || cache.funcMask != mask then
      (cache.(func := func, funcRef := ref, funcMask := mask), [StencilFuncCmd(func, ref, mask)])
    else (cache, [])
  }

  /** `glnvg__blendFuncSeparate`: compares all four factors. */
  function SetBlend(cache: Cache, b: Blend): (r: (Cache, seq<Cmd>))
    ensures r.0 == cache.(blend := b)
    ensures r.1 == [] || r.1 == [BlendFuncSeparate(b)]
    ensures r.1 != [] <==> cache.blend != b
  {
    if cache.blend != b then (cache.(blend := b), [BlendFuncSeparate(b)]) else (cache, [])
  }

  /** Against a coherent cache, each setter leaves GL in the requested state,
      touches nothing else, and keeps the cache coherent: eliding a call
      never loses a state change. */
  lemma {:induction false} SetTextureRuns(cache: Cache, s: GlState, tex: int)
    requires Coherent(cache, s)
    ensures var (c, t) := SetTexture(cache, tex);
      Run(s, t) == s.(texture := tex) && Effects(s, t) == [] && Coherent(c, Run(s, t))
  {
    var (c, t) := SetTexture(cache, tex);
    if t != [] { RunOne(s, t[0]); }
  }

  lemma {:induction false} SetStencilMaskRuns(cache: Cache, s: GlState, mask: int)
    requires Coherent(cache, s)
    ensures var (c, t) := SetStencilMask(cache, mask);
      Run(s, t) == s.(stencilMask := mask) && Effects(s, t) == [] && Coherent(c, Run(s, t))
  {
    var (c, t) := SetStencilMask(cache, mask);
    if t != [] { RunOne(s, t[0]); }
  }

  lemma {:induction false} SetStencilFuncRuns(cache: Cache, s: GlState, func: StencilFunc, ref: int, mask: int)
    requires Coherent(cache, s)
    ensures var (c, t) := SetStencilFunc(cache, func, ref, mask);
      && Run(s, t) == s.(func := func, funcRef := ref, funcMask := mask)
      && Effects(s, t) == [] && Coherent(c, Run(s, t))
  {
    var (c, t) := SetStencilFunc(cache, func, ref, mask);
    if t != [] { RunOne(s, t[0]); }
  }

  lemma {:induction false} SetBlendRuns(cache: Cache, s: GlState, b: Blend)
    requires Coherent(cache, s) && ValidBlend(b)
    ensures var (c, t) := SetBlend(cache, b);
      Run(s, t) == s.(blend := b) && Effects(s, t) == [] && Coherent(c, Run(s, t))
  {
    var (c, t) := SetBlend(cache, b);
    if t != [] { RunOne(s, t[0]); }
  }

  // ---------------------------------------------------------------------
  // Uniforms and textures of one draw

  /** The GL texture a draw binds: the image's when it is registered, else
      the dummy texture's, else none. */
  function TextureFor(ctx: Context, image: int): (h: int)
    ensures image != 0 && image in ctx.textures ==> h == ctx.textures[image].handle
    ensures (image == 0 || image !in ctx.textures) && ctx.dummyTex in ctx.textures ==>
      h == ctx.textures[ctx.dummyTex].handle
    ensures (image == 0 || image !in ctx.textures) && ctx.dummyTex !in ctx.textures ==> h == 0
  {
    var tex := if image != 0 then FindTexture(ctx, image) else None;
    var tex := if tex.None? then FindTexture(ctx, ctx.dummyTex) else tex;
    if tex.Some? then tex.value.handle else 0
  }

  /** `glnvg__setUniforms`: binds one block of the uniform buffer, then the
      draw's texture through the cache. */
  function SetUniforms(ctx: Context, cache: Cache, offset: int, image: int): (r: (Cache, seq<Cmd>))
    ensures r.0 == cache.(boundTexture := TextureFor(ctx, image))
    ensures |r.1| >= 1 && r.1[0] == BindBufferRange(offset, FragUniformsSize)
  {
    var (c, t) := SetTexture(cache, TextureFor(ctx, image));
    (c, [BindBufferRange(offset, FragUniformsSize)] + t)
  }

  lemma {:induction false} SetUniformsRuns(ctx: Context, cache: Cache, s: GlState, offset: int, image: int)
    requires Coherent(cache, s)
    ensures var (c, t) := SetUniforms(ctx, cache, offset, image);
      && Run(s, t) == s.(uniformOffset := offset, texture := TextureFor(ctx, image))
      && Effects(s, t) == [] && Coherent(c, Run(s, t))
  {
    var s1 := s.(uniformOffset := offset);
    SetTextureRuns(cache, s1, TextureFor(ctx, image));
    RunCons(s, BindBufferRange(offset, FragUniformsSize), SetTexture(cache, TextureFor(ctx, image)).1);
  }

  // ---------------------------------------------------------------------
  // Draw lists

  /** One triangle fan per path over its fill range. */
  function FanDraws(paths: seq<GlPath>): (t: seq<Cmd>)
    ensures |t| == |paths| && AllDraws(t)
    ensures forall i :: 0 <= i < |paths| ==> t[i] == DrawArrays(TriangleFan, paths[i].fillOffset, paths[i].fillCount)
  {
    seq(|paths|, i requires 0 <= i < |paths| => DrawArrays(TriangleFan, paths[i].fillOffset, paths[i].fillCount))
  }

  /** One triangle strip per path over its stroke range. */
  function StripDraws(paths: seq<GlPath>): (t: seq<Cmd>)
    ensures |t| == |paths| && AllDraws(t)
    ensures forall i :: 0 <= i < |paths| ==> t[i] == DrawArrays(TriangleStrip, paths[i].strokeOffset, paths[i].strokeCount)
  {
    seq(|paths|, i requires 0 <= i < |paths| => DrawArrays(TriangleStrip, paths[i].strokeOffset, paths[i].strokeCount))
  }

  /** A convex fill's draws: each path's fan, followed by its fringe strip
      when it has one. */
  function ConvexDraws(paths: seq<GlPath>): (t: seq<Cmd>)
    ensures AllDraws(t)
    decreases |paths|
  {
    if |paths| == 0 then []
    else
      var p := paths[0];
      var own := [DrawArrays(TriangleFan, p.fillOffset, p.fillCount)]
        + (if p.strokeCount > 0 then [DrawArrays(TriangleStrip, p.strokeOffset, p.strokeCount)] else []);
      var t := own + ConvexDraws(paths[1..]);
      assert forall k :: 0 <= k < |t| ==> t[k] == if k < |own| then own[k] else ConvexDraws(paths[1..])[k - |own|];
      t
  }

  /** Number of draws a convex fill issues: one fan per path plus one strip
      per path with a non-empty stroke. */
  function ConvexDrawCount(paths: seq<GlPath>): nat
    decreases |paths|
  {
    if |paths| == 0 then 0 else 1 + (if paths[0].strokeCount > 0 then 1 else 0) + ConvexDrawCount(paths[1..])
  }

  lemma {:induction false} ConvexDrawsCount(paths: seq<GlPath>)
    ensures |ConvexDraws(paths)| == ConvexDrawCount(paths)
    ensures |ConvexDraws(paths)| >= |paths|
    decreases |paths|
  {
    if |paths| > 0 {
      ConvexDrawsCount(paths[1..]);
    }
  }

  // ---------------------------------------------------------------------
  // Composition of segments

  /** Two segments with no effects run one after the other. */
  lemma {:induction false} Chain(s: GlState, a: seq<Cmd>, b: seq<Cmd>, s1: GlState, s2: GlState)
    requires Run(s, a) == s1 && Effects(s, a) == []
    requires Run(s1, b) == s2 && Effects(s1, b) == []
    ensures Run(s, a + b) == s2 && Effects(s, a + b) == []
  {
    RunAppend(s, a, b);
  }

  /** Every command of `d` as an effect under one state. */
  function Under(st: GlState, d: seq<Cmd>): (e: seq<Effect>)
    ensures |e| == |d|
    ensures forall k :: 0 <= k < |d| ==> e[k] == Effect(st, d[k])
  {
    seq(|d|, k requires 0 <= k < |d| => Effect(st, d[k]))
  }

  lemma {:induction false} DrawsUnder(st: GlState, d: seq<Cmd>)
    requires AllDraws(d)
    ensures Run(st, d) == st && Effects(st, d) == Under(st, d)
  {
    DrawsOnly(st, d);
  }

  /** A quiet segment followed by draws: the draws all run in the state the
      segment leaves. */
  lemma {:induction false} ThenDraws(s: GlState, a: seq<Cmd>, d: seq<Cmd>, s1: GlState)
    requires Run(s, a) == s1 && Effects(s, a) == [] && AllDraws(d)
    ensures Run(s, a + d) == s1 && Effects(s, a + d) == Under(s1, d)
  {
    RunAppend(s, a, d);
    DrawsUnder(s1, d);
  }

  /** Two state-changing commands with no effect of their own. */
  lemma {:induction false} TwoQuiet(s: GlState, c1: Cmd, c2: Cmd)
    requires !IsEffect(c1) && !IsEffect(c2)
    ensures Run(s, [c1, c2]) == Step(Step(s, c1), c2) && Effects(s, [c1, c2]) == []
  {
    RunCons(s, c1, [c2]);
    RunOne(Step(s, c1), c2);
    assert [c1, c2] == [c1] + [c2];
  }

  const KeepOps: StencilOps := StencilOps(Keep, Keep, Keep)
  const ZeroOps: StencilOps := StencilOps(OpZero, OpZero, OpZero)
  const IncrWrapOps: StencilOps := StencilOps(Keep, Keep, IncrWrap)
  const DecrWrapOps: StencilOps := StencilOps(Keep, Keep, DecrWrap)
  const IncrOps: StencilOps := StencilOps(Keep, Keep, Incr)

  // ---------------------------------------------------------------------
  // Pieces shared by the fill and stroke protocols

  /** Stencil test on, then (through the cache) the byte write mask and the
      given function against reference 0 under the byte mask. */
  function StencilHead(cache: Cache, func: StencilFunc): (Cache, seq<Cmd>) {
    var (c1, m) := SetStencilMask(cache, ByteMask);
    var (c2, f) := SetStencilFunc(c1, func, 0, ByteMask);
    (c2, [Enable(StencilTestCap)] + m + f)
  }

  lemma {:induction false} StencilHeadRuns(cache: Cache, s: GlState, func: StencilFunc)
    requires Coherent(cache, s)
    ensures var (c, t) := StencilHead(cache, func);
      var s2 := s.(stencilTest := true, stencilMask := ByteMask, func := func, funcRef := 0, funcMask := ByteMask);
      Run(s, t) == s2 && Effects(s, t) == [] && Coherent(c, s2)
  {
    var (c1, m) := SetStencilMask(cache, ByteMask);
    var (c2, f) := SetStencilFunc(c1, func, 0, ByteMask);
    var s0 := s.(stencilTest := true);
    RunOne(s, Enable(StencilTestCap));
    SetStencilMaskRuns(cache, s0, ByteMask);
    Chain(s, [Enable(StencilTestCap)], m, s0, s0.(stencilMask := ByteMask));
    SetStencilFuncRuns(c1, s0.(stencilMask := ByteMask), func, 0, ByteMask);
    Chain(s, [Enable(StencilTestCap)] + m, f, s0.(stencilMask := ByteMask),
          s0.(stencilMask := ByteMask, func := func, funcRef := 0, funcMask := ByteMask));
  }

  /** A colour-mask change followed by a block and texture binding. */
  function ColorThenUniforms(ctx: Context, cache: Cache, on: bool, offset: int, image: int): (Cache, seq<Cmd>) {
    var (c, u) := SetUniforms(ctx, cache, offset, image);
    (c, [ColorMask(on)] + u)
  }

  lemma {:induction false} ColorThenUniformsRuns(ctx: Context, cache: Cache, s: GlState, on: bool, offset: int, image: int)
    requires Coherent(cache, s)
    ensures var (c, t) := ColorThenUniforms(ctx, cache, on, offset, image);
      var s2 := s.(colorMask := on, uniformOffset := offset, texture := TextureFor(ctx, image));
      Run(s, t) == s2 && Effects(s, t) == [] && Coherent(c, s2)
  {
    var (c, u) := SetUniforms(ctx, cache, offset, image);
    RunOne(s, ColorMask(on));
    SetUniformsRuns(ctx, cache, s.(colorMask := on), offset, image);
    Chain(s, [ColorMask(on)], u, s.(colorMask := on),
          s.(colorMask := on, uniformOffset := offset, texture := TextureFor(ctx, image)));
  }

  /** A stencil function (through the cache) followed by the same stencil
      operations on both faces. */
  function FuncThenOps(cache: Cache, func: StencilFunc, ops: StencilOps): (Cache, seq<Cmd>) {
    var (c, f) := SetStencilFunc(cache, func, 0, ByteMask);
    (c, f + [StencilOpBoth(ops)])
  }

  lemma {:induction false} FuncThenOpsRuns(cache: Cache, s: GlState, func: StencilFunc, ops: StencilOps)
    requires Coherent(cache, s)
    ensures var (c, t) := FuncThenOps(cache, func, ops);
      var s2 := s.(func := func, funcRef := 0, funcMask := ByteMask, front := ops, back := ops);
      Run(s, t) == s2 && Effects(s, t) == [] && Coherent(c, s2)
  {
    var (c, f) := SetStencilFunc(cache, func, 0, ByteMask);
    var s1 := s.(func := func, funcRef := 0, funcMask := ByteMask);
    SetStencilFuncRuns(cache, s, func, 0, ByteMask);
    RunOne(s1, StencilOpBoth(ops));
    Chain(s, f, [StencilOpBoth(ops)], s1, s1.(front := ops, back := ops));
  }

  /** A stencil pass's draw state: the stencil test on, the given function
      against reference 0 under the byte mask, the same operations on both
      faces. */
  predicate StencilPass(st: GlState, func: StencilFunc, ops: StencilOps) {
    && st.stencilTest && st.funcRef == 0 && st.funcMask == ByteMask
    && st.func == func && st.front == ops && st.back == ops
  }

  // ---------------------------------------------------------------------
  // glnvg__fill

  /** Counting windings: increment on front faces, decrement on back faces,
      with culling off so that both are drawn. */
  const WindingOps: seq<Cmd> :=
    [StencilOpSeparate(Front, IncrWrapOps), StencilOpSeparate(Back, DecrWrapOps), Disable(CullFaceCap)]

  lemma {:induction false} WindingOpsRuns(s: GlState)
    ensures Run(s, WindingOps) == s.(front := IncrWrapOps, back := DecrWrapOps, cullFace := false)
    ensures Effects(s, WindingOps) == []
  {
    TwoQuiet(s, WindingOps[0], WindingOps[1]);
    var s2 := s.(front := IncrWrapOps, back := DecrWrapOps);
    RunOne(s2, WindingOps[2]);
    assert WindingOps == [WindingOps[0], WindingOps[1]] + [WindingOps[2]];
    Chain(s, [WindingOps[0], WindingOps[1]], [WindingOps[2]], s2, s2.(cullFace := false));
  }

  /** Up to the fan draws: stencil on with ALWAYS, colour off with the
      simple block, winding counting. */
  function FillStencilSetup(ctx: Context, cache: Cache, call: Call): (Cache, seq<Cmd>) {
    var (c1, h) := StencilHead(cache, Always);
    var (c2, u) := ColorThenUniforms(ctx, c1, false, call.uniformOffset, 0);
    (c2, h + u + WindingOps)
  }

  /** The state the stencil-writing fans run in: colour writes off, culling
      off, front faces counted up and back faces down. */
  predicate StencilWritePass(st: GlState, offset: int) {
    && st.stencilTest && !st.colorMask && !st.cullFace
    && st.stencilMask == ByteMask
    && st.func == Always && st.funcRef == 0 && st.funcMask == ByteMask
    && st.front == IncrWrapOps && st.back == DecrWrapOps
    && st.uniformOffset == offset
  }

  function StencilWriteState(ctx: Context, s: GlState, call: Call): GlState {
    s.(stencilTest := true, stencilMask := ByteMask, func := Always, funcRef := 0, funcMask := ByteMask,
       colorMask := false, uniformOffset := call.uniformOffset, texture := TextureFor(ctx, 0),
       front := IncrWrapOps, back := DecrWrapOps, cullFace := false)
  }

  lemma {:induction false} FillStencilSetupRuns(ctx: Context, cache: Cache, s: GlState, call: Call)
    requires Coherent(cache, s)
    ensures var (c, t) := FillStencilSetup(ctx, cache, call);
      Run(s, t) == StencilWriteState(ctx, s, call) && Effects(s, t) == [] && Coherent(c, Run(s, t))
  {
    var (c1, h) := StencilHead(cache, Always);
    var (c2, u) := ColorThenUniforms(ctx, c1, false, call.uniformOffset, 0);
    var s1 := s.(stencilTest := true, stencilMask := ByteMask, func := Always, funcRef := 0, funcMask := ByteMask);
    var s2 := s1.(colorMask := false, uniformOffset := call.uniformOffset, texture := TextureFor(ctx, 0));
    StencilHeadRuns(cache, s, Always);
    ColorThenUniformsRuns(ctx, c1, s1, false, call.uniformOffset, 0);
    Chain(s, h, u, s1, s2);
    WindingOpsRuns(s2);
    Chain(s, h + u, WindingOps, s2, s2.(front := IncrWrapOps, back := DecrWrapOps, cullFace := false));
  }

  /** Between the fans and the fringes: culling back on, colour on with the
      paint block, and under antialiasing EQUAL 0 with KEEP. */
  function FillFringeSetup(ctx: Context, cache: Cache, call: Call): (Cache, seq<Cmd>) {
    var (c1, u) := ColorThenUniforms(ctx, cache, true, call.uniformOffset + ctx.fragSize, call.image);
    var (c2, f) := FuncThenOps(c1, Equal, KeepOps);
    if ctx.flags.antialias then (c2, [Enable(CullFaceCap)] + u + f) else (c1, [Enable(CullFaceCap)] + u)
  }

  /** The state the antialiased fringes run in: colour on, only where the
      stencil is still zero, which it keeps. */
  predicate FringePass(st: GlState, offset: int, tex: int) {
    && StencilPass(st, Equal, KeepOps) && st.colorMask && st.cullFace
    && st.uniformOffset == offset && st.texture == tex
  }

  function FringeState(ctx: Context, s: GlState, call: Call): GlState {
    var s1 := s.(cullFace := true, colorMask := true, uniformOffset := call.uniformOffset + ctx.fragSize,
                 texture := TextureFor(ctx, call.image));
    if ctx.flags.antialias then s1.(func := Equal, funcRef := 0, funcMask := ByteMask, front := KeepOps, back := KeepOps)
    else s1
  }

  lemma {:induction false} FillFringeSetupRuns(ctx: Context, cache: Cache, s: GlState, call: Call)
    requires Coherent(cache, s)
    ensures var (c, t) := FillFringeSetup(ctx, cache, call);
      Run(s, t) == FringeState(ctx, s, call) && Effects(s, t) == [] && Coherent(c, Run(s, t))
  {
    var (c1, u) := ColorThenUniforms(ctx, cache, true, call.uniformOffset + ctx.fragSize, call.image);
    var (c2, f) := FuncThenOps(c1, Equal, KeepOps);
    var s1 := s.(cullFace := true);
    var s2 := s1.(colorMask := true, uniformOffset := call.uniformOffset + ctx.fragSize,
                  texture := TextureFor(ctx, call.image));
    RunOne(s, Enable(CullFaceCap));
    ColorThenUniformsRuns(ctx, cache, s1, true, call.uniformOffset + ctx.fragSize, call.image);
    Chain(s, [Enable(CullFaceCap)], u, s1, s2);
    if ctx.flags.antialias {
      FuncThenOpsRuns(c1, s2, Equal, KeepOps);
      Chain(s, [Enable(CullFaceCap)] + u, f, s2,
            s2.(func := Equal, funcRef := 0, funcMask := ByteMask, front := KeepOps, back := KeepOps));
    }
  }

  /** The covering quad: NOTEQUAL 0, zeroing the stencil as it goes; then
      the stencil test is switched off. */
  function FillCover(cache: Cache, call: Call): (Cache, seq<Cmd>) {
    var (c, f) := FuncThenOps(cache, NotEqual, ZeroOps);
    (c, f + [DrawArrays(TriangleStrip, call.triangleOffset, call.triangleCount), Disable(StencilTestCap)])
  }

  /** The state the covering quad runs in: colour on, only where the stencil
      is non-zero, which it resets to zero. */
  predicate CoverPass(st: GlState) {
    StencilPass(st, NotEqual, ZeroOps) && st.colorMask && st.cullFace
  }

  lemma {:induction false} DrawThenDisable(s: GlState, draw: Cmd)
    requires draw.DrawArrays?
    ensures Run(s, [draw, Disable(StencilTestCap)]) == s.(stencilTest := false)
    ensures Effects(s, [draw, Disable(StencilTestCap)]) == [Effect(s, draw)]
  {
    RunCons(s, draw, [Disable(StencilTestCap)]);
    RunOne(s, Disable(StencilTestCap));
    assert [draw, Disable(StencilTestCap)] == [draw] + [Disable(StencilTestCap)];
  }

  lemma {:induction false} FillCoverRuns(cache: Cache, s: GlState, call: Call)
    requires Coherent(cache, s)
    ensures var (c, t) := FillCover(cache, call);
      var s2 := s.(func := NotEqual, funcRef := 0, funcMask := ByteMask, front := ZeroOps, back := ZeroOps);
      && Run(s, t) == s2.(stencilTest := false)
      && Effects(s, t) == [Effect(s2, DrawArrays(TriangleStrip, call.triangleOffset, call.triangleCount))]
      && Coherent(c, Run(s, t))
  {
    var (c, f) := FuncThenOps(cache, NotEqual, ZeroOps);
    var s2 := s.(func := NotEqual, funcRef := 0, funcMask := ByteMask, front := ZeroOps, back := ZeroOps);
    var draw := DrawArrays(TriangleStrip, call.triangleOffset, call.triangleCount);
    FuncThenOpsRuns(cache, s, NotEqual, ZeroOps);
    DrawThenDisable(s2, draw);
    RunAppend(s, f, [draw, Disable(StencilTestCap)]);
  }

  /** `glnvg__fill`: stencil pass, antialiased fringes, covering quad. */
  function FillTrace(ctx: Context, cache: Cache, call: Call, paths: seq<GlPath>): (Cache, seq<Cmd>) {
    var (c1, a) := FillStencilSetup(ctx, cache, call);
    var (c2, b) := FillFringeSetup(ctx, c1, call);
    var (c3, d) := FillCover(c2, call);
    (c3, (a + FanDraws(paths)) + (b + (if ctx.flags.antialias then StripDraws(paths) else []) + d))
  }

  function CoverState(ctx: Context, s: GlState, call: Call): GlState {
    FringeState(ctx, StencilWriteState(ctx, s, call), call)
      .(func := NotEqual, funcRef := 0, funcMask := ByteMask, front := ZeroOps, back := ZeroOps)
  }

  /** From the fringe setup on: the strips under the fringe state (when
      antialiased), then the quad. */
  lemma {:induction false} FillSecondHalf(ctx: Context, cache: Cache, s1: GlState, call: Call, paths: seq<GlPath>)
    requires Coherent(cache, s1)
    ensures var (c2, b) := FillFringeSetup(ctx, cache, call);
      var (c3, d) := FillCover(c2, call);
      var strips := if ctx.flags.antialias then StripDraws(paths) else [];
      var s2 := FringeState(ctx, s1, call);
      var s3 := s2.(func := NotEqual, funcRef := 0, funcMask := ByteMask, front := ZeroOps, back := ZeroOps);
      && Effects(s1, b + strips + d)
           == Under(s2, strips) + [Effect(s3, DrawArrays(TriangleStrip, call.triangleOffset, call.triangleCount))]
      && Run(s1, b + strips + d) == s3.(stencilTest := false)
      && Coherent(c3, s3.(stencilTest := false))
  {
    var (c2, b) := FillFringeSetup(ctx, cache, call);
    var (c3, d) := FillCover(c2, call);
    var strips := if ctx.flags.antialias then StripDraws(paths) else [];
    var s2 := FringeState(ctx, s1, call);
    FillFringeSetupRuns(ctx, cache, s1, call);
    ThenDraws(s1, b, strips, s2);
    FillCoverRuns(c2, s2, call);
    RunAppend(s1, b + strips, d);
  }

  /** The replay of a fill, exactly: fans under the stencil-writing state,
      strips (antialiased only) under the fringe state, the quad under the
      covering state; afterwards the stencil test is off. */
  lemma {:induction false} FillEffects(ctx: Context, cache: Cache, s: GlState, call: Call, paths: seq<GlPath>)
    requires Coherent(cache, s)
    ensures var (c, t) := FillTrace(ctx, cache, call, paths);
      var s1 := StencilWriteState(ctx, s, call);
      && Effects(s, t) == Under(s1, FanDraws(paths))
           + (Under(FringeState(ctx, s1, call), if ctx.flags.antialias then StripDraws(paths) else [])
              + [Effect(CoverState(ctx, s, call), DrawArrays(TriangleStrip, call.triangleOffset, call.triangleCount))])
      && Run(s, t) == CoverState(ctx, s, call).(stencilTest := false)
      && Coherent(c, Run(s, t))
  {
    var (c1, a) := FillStencilSetup(ctx, cache, call);
    var (c2, b) := FillFringeSetup(ctx, c1, call);
    var (c3, d) := FillCover(c2, call);
    var strips := if ctx.flags.antialias then StripDraws(paths) else [];
    var s1 := StencilWriteState(ctx, s, call);
    FillStencilSetupRuns(ctx, cache, s, call);
    ThenDraws(s, a, FanDraws(paths), s1);
    FillSecondHalf(ctx, c1, s1, call, paths);
    RunAppend(s, a + FanDraws(paths), b + strips + d);
  }

  /** The fill protocol, draw by draw: every fan writes the stencil with
      colour off; under antialiasing every fringe strip draws where the
      stencil is zero; the quad draws where it is non-zero and clears it;
      the first pass reads the simple block and the others the paint block;
      nothing changes the blend; the stencil test ends off with colour and
      culling on. */
  lemma {:induction false} FillProtocol(ctx: Context, cache: Cache, s: GlState, call: Call, paths: seq<GlPath>)
    requires Coherent(cache, s)
    ensures var (c, t) := FillTrace(ctx, cache, call, paths);
      var e := Effects(s, t);
      var n := |paths|;
      var tex := TextureFor(ctx, call.image);
      var paintBlock := call.uniformOffset + ctx.fragSize;
      && |e| == (if ctx.flags.antialias then 2 * n else n) + 1
      && (forall k :: 0 <= k < n ==>
            && e[k].cmd == DrawArrays(TriangleFan, paths[k].fillOffset, paths[k].fillCount)
            && StencilWritePass(e[k].state, call.uniformOffset))
      && (ctx.flags.antialias ==> forall k :: n <= k < 2 * n ==>
            && e[k].cmd == DrawArrays(TriangleStrip, paths[k - n].strokeOffset, paths[k - n].strokeCount)
            && FringePass(e[k].state, paintBlock, tex))
      && e[|e| - 1].cmd == DrawArrays(TriangleStrip, call.triangleOffset, call.triangleCount)
      && CoverPass(e[|e| - 1].state)
      && e[|e| - 1].state.uniformOffset == paintBlock && e[|e| - 1].state.texture == tex
      && (forall k :: 0 <= k < |e| ==> e[k].state.blend == s.blend)
      && !Run(s, t).stencilTest && Run(s, t).colorMask && Run(s, t).cullFace
      && Run(s, t).blend == s.blend
      && Coherent(c, Run(s, t))
  {
    FillFanPasses(ctx, cache, s, call, paths);
    FillFringePasses(ctx, cache, s, call, paths);
    FillCoverPass(ctx, cache, s, call, paths);
    FillKeepsBlend(ctx, cache, s, call, paths);
  }

  lemma {:induction false} FillFanPasses(ctx: Context, cache: Cache, s: GlState, call: Call, paths: seq<GlPath>)
    requires Coherent(cache, s)
    ensures var e := Effects(s, FillTrace(ctx, cache, call, paths).1);
      var n := |paths|;
      && |e| == (if ctx.flags.antialias then 2 * n else n) + 1
      && (forall k :: 0 <= k < n ==>
            && e[k].cmd == DrawArrays(TriangleFan, paths[k].fillOffset, paths[k].fillCount)
            && StencilWritePass(e[k].state, call.uniformOffset))
  {
    FillEffects(ctx, cache, s, call, paths);
    var s1 := StencilWriteState(ctx, s, call);
    TwoPassesThenOne(s1, FringeState(ctx, s1, call), CoverState(ctx, s, call), FanDraws(paths),
                     if ctx.flags.antialias then StripDraws(paths) else [],
                     DrawArrays(TriangleStrip, call.triangleOffset, call.triangleCount));
  }

  lemma {:induction false} FillFringePasses(ctx: Context, cache: Cache, s: GlState, call: Call, paths: seq<GlPath>)
    requires Coherent(cache, s)
    ensures var e := Effects(s, FillTrace(ctx, cache, call, paths).1);
      var n := |paths|;
      && |e| == (if ctx.flags.antialias then 2 * n else n) + 1
      && (ctx.flags.antialias ==> forall k :: n <= k < 2 * n ==>
        && e[k].cmd == DrawArrays(TriangleStrip, paths[k - n].strokeOffset, paths[k - n].strokeCount)
        && FringePass(e[k].state, call.uniformOffset + ctx.fragSize, TextureFor(ctx, call.image)))
  {
    FillEffects(ctx, cache, s, call, paths);
    var s1 := StencilWriteState(ctx, s, call);
    TwoPassesThenOne(s1, FringeState(ctx, s1, call), CoverState(ctx, s, call), FanDraws(paths),
                     if ctx.flags.antialias then StripDraws(paths) else [],
                     DrawArrays(TriangleStrip, call.triangleOffset, call.triangleCount));
  }

  lemma {:induction false} FillCoverPass(ctx: Context, cache: Cache, s: GlState, call: Call, paths: seq<GlPath>)
    requires Coherent(cache, s)
    ensures var e := Effects(s, FillTrace(ctx, cache, call, paths).1);
      && |e| > 0
      && e[|e| - 1].cmd == DrawArrays(TriangleStrip, call.triangleOffset, call.triangleCount)
      && CoverPass(e[|e| - 1].state)
      && e[|e| - 1].state.uniformOffset == call.uniformOffset + ctx.fragSize
      && e[|e| - 1].state.texture == TextureFor(ctx, call.image)
  {
    FillEffects(ctx, cache, s, call, paths);
    var s1 := StencilWriteState(ctx, s, call);
    TwoPassesThenOne(s1, FringeState(ctx, s1, call), CoverState(ctx, s, call), FanDraws(paths),
                     if ctx.flags.antialias then StripDraws(paths) else [],
                     DrawArrays(TriangleStrip, call.triangleOffset, call.triangleCount));
  }

  lemma {:induction false} FillKeepsBlend(ctx: Context, cache: Cache, s: GlState, call: Call, paths: seq<GlPath>)
    requires Coherent(cache, s)
    ensures var (c, t) := FillTrace(ctx, cache, call, paths);
      var e := Effects(s, t);
      && (forall k :: 0 <= k < |e| ==> e[k].state.blend == s.blend)
      && !Run(s, t).stencilTest && Run(s, t).colorMask && Run(s, t).cullFace
      && Run(s, t).blend == s.blend
      && Coherent(c, Run(s, t))
  {
    FillEffects(ctx, cache, s, call, paths);
    var s1 := StencilWriteState(ctx, s, call);
    TwoPassesThenOne(s1, FringeState(ctx, s1, call), CoverState(ctx, s, call), FanDraws(paths),
                     if ctx.flags.antialias then StripDraws(paths) else [],
                     DrawArrays(TriangleStrip, call.triangleOffset, call.triangleCount));
  }

  /** Indexing two passes and a final draw. */
  lemma {:induction false} TwoPassesThenOne(a: GlState, b: GlState, c: GlState, d1: seq<Cmd>, d2: seq<Cmd>, last: Cmd)
    ensures var e := Under(a, d1) + (Under(b, d2) + [Effect(c, last)]);
      && |e| == |d1| + |d2| + 1
      && (forall k :: 0 <= k < |d1| ==> e[k] == Effect(a, d1[k]))
      && (forall k :: |d1| <= k < |d1| + |d2| ==> e[k] == Effect(b, d2[k - |d1|]))
      && e[|e| - 1] == Effect(c, last)
  {
  }

  // ---------------------------------------------------------------------
  // glnvg__convexFill

  /** `glnvg__convexFill`: the paint block, then each path's fan and fringe. */
  function ConvexFillTrace(ctx: Context, cache: Cache, call: Call, paths: seq<GlPath>): (Cache, seq<Cmd>) {
    var (c, u) := SetUniforms(ctx, cache, call.uniformOffset, call.image);
    (c, u + ConvexDraws(paths))
  }

  /** A convex fill touches no stencil state: every draw runs in the state
      it found, with the call's block and texture bound. */
  lemma {:induction false} ConvexFillProtocol(ctx: Context, cache: Cache, s: GlState, call: Call, paths: seq<GlPath>)
    requires Coherent(cache, s)
    ensures var (c, t) := ConvexFillTrace(ctx, cache, call, paths);
      var st := s.(uniformOffset := call.uniformOffset, texture := TextureFor(ctx, call.image));
      && Effects(s, t) == Under(st, ConvexDraws(paths))
      && |Effects(s, t)| == ConvexDrawCount(paths)
      && Run(s, t) == st
      && Coherent(c, Run(s, t))
  {
    var (c, u) := SetUniforms(ctx, cache, call.uniformOffset, call.image);
    SetUniformsRuns(ctx, cache, s, call.uniformOffset, call.image);
    ThenDraws(s, u, ConvexDraws(paths), s.(uniformOffset := call.uniformOffset, texture := TextureFor(ctx, call.image)));
    ConvexDrawsCount(paths);
  }

  // ---------------------------------------------------------------------
  // glnvg__triangles

  /** `glnvg__triangles`: the call's block, then one triangle list. */
  function TrianglesTrace(ctx: Context, cache: Cache, call: Call): (Cache, seq<Cmd>) {
    var (c, u) := SetUniforms(ctx, cache, call.uniformOffset, call.image);
    (c, u + [DrawArrays(Triangles, call.triangleOffset, call.triangleCount)])
  }

  lemma {:induction false} TrianglesProtocol(ctx: Context, cache: Cache, s: GlState, call: Call)
    requires Coherent(cache, s)
    ensures var (c, t) := TrianglesTrace(ctx, cache, call);
      var st := s.(uniformOffset := call.uniformOffset, texture := TextureFor(ctx, call.image));
      && Effects(s, t) == [Effect(st, DrawArrays(Triangles, call.triangleOffset, call.triangleCount))]
      && Run(s, t) == st
      && Coherent(c, Run(s, t))
  {
    var (c, u) := SetUniforms(ctx, cache, call.uniformOffset, call.image);
    var draw := DrawArrays(Triangles, call.triangleOffset, call.triangleCount);
    var st := s.(uniformOffset := call.uniformOffset, texture := TextureFor(ctx, call.image));
    SetUniformsRuns(ctx, cache, s, call.uniformOffset, call.image);
    ThenDraws(s, u, [draw], st);
  }

  // ---------------------------------------------------------------------
  // glnvg__stroke

  /** Stencil strokes, first pass: stencil on with EQUAL 0, increment, and
      the threshold block one stride in. */
  function StrokeBaseSetup(ctx: Context, cache: Cache, call: Call): (Cache, seq<Cmd>) {
    var h := StencilHead(cache, Equal);
    var u := SetUniforms(ctx, h.0, call.uniformOffset + ctx.fragSize, call.image);
    (u.0, (h.1 + [StencilOpBoth(IncrOps)]) + u.1)
  }

  function StrokeBaseState(ctx: Context, s: GlState, call: Call): GlState {
    s.(stencilTest := true, stencilMask := ByteMask, func := Equal, funcRef := 0, funcMask := ByteMask,
       front := IncrOps, back := IncrOps,
       uniformOffset := call.uniformOffset + ctx.fragSize, texture := TextureFor(ctx, call.image))
  }

  /** The stencil part of the first pass: EQUAL 0 under the byte mask, then
      increment. */
  lemma {:induction false} StrokeBaseHeadRuns(cache: Cache, s: GlState)
    requires Coherent(cache, s)
    ensures var h := StencilHead(cache, Equal);
      var s2 := s.(stencilTest := true, stencilMask := ByteMask, func := Equal, funcRef := 0, funcMask := ByteMask,
                   front := IncrOps, back := IncrOps);
      Run(s, h.1 + [StencilOpBoth(IncrOps)]) == s2 && Effects(s, h.1 + [StencilOpBoth(IncrOps)]) == []
      && Coherent(h.0, s2)
  {
    var h := StencilHead(cache, Equal);
    var s1 := s.(stencilTest := true, stencilMask := ByteMask, func := Equal, funcRef := 0, funcMask := ByteMask);
    StencilHeadRuns(cache, s, Equal);
    RunOne(s1, StencilOpBoth(IncrOps));
    Chain(s, h.1, [StencilOpBoth(IncrOps)], s1, s1.(front := IncrOps, back := IncrOps));
  }

  lemma {:induction false} StrokeBaseSetupRuns(ctx: Context, cache: Cache, s: GlState, call: Call)
    requires Coherent(cache, s)
    ensures var r := StrokeBaseSetup(ctx, cache, call);
      Run(s, r.1) == StrokeBaseState(ctx, s, call) && Effects(s, r.1) == [] && Coherent(r.0, Run(s, r.1))
  {
    var h := StencilHead(cache, Equal);
    var s2 := s.(stencilTest := true, stencilMask := ByteMask, func := Equal, funcRef := 0, funcMask := ByteMask,
                 front := IncrOps, back := IncrOps);
    StrokeBaseHeadRuns(cache, s);
    SetUniformsRuns(ctx, h.0, s2, call.uniformOffset + ctx.fragSize, call.image);
    Chain(s, h.1 + [StencilOpBoth(IncrOps)], SetUniforms(ctx, h.0, call.uniformOffset + ctx.fragSize, call.image).1,
          s2, StrokeBaseState(ctx, s, call));
  }

  /** Second pass: the base block, EQUAL 0 again (already cached, so never
      sent), and KEEP. */
  function StrokeAaSetup(ctx: Context, cache: Cache, call: Call): (Cache, seq<Cmd>) {
    var (c1, u) := SetUniforms(ctx, cache, call.uniformOffset, call.image);
    var (c2, f) := FuncThenOps(c1, Equal, KeepOps);
    (c2, u + f)
  }

  lemma {:induction false} StrokeAaSetupRuns(ctx: Context, cache: Cache, s: GlState, call: Call)
    requires Coherent(cache, s)
    requires s.func == Equal && s.funcRef == 0 && s.funcMask == ByteMask
    ensures SetStencilFunc(SetUniforms(ctx, cache, call.uniformOffset, call.image).0, Equal, 0, ByteMask).1 == []
    ensures var (c, t) := StrokeAaSetup(ctx, cache, call);
      && Run(s, t) == s.(uniformOffset := call.uniformOffset, texture := TextureFor(ctx, call.image),
                         front := KeepOps, back := KeepOps)
      && Effects(s, t) == [] && Coherent(c, Run(s, t))
  {
    var (c1, u) := SetUniforms(ctx, cache, call.uniformOffset, call.image);
    var s1 := s.(uniformOffset := call.uniformOffset, texture := TextureFor(ctx, call.image));
    SetUniformsRuns(ctx, cache, s, call.uniformOffset, call.image);
    FuncThenOpsRuns(c1, s1, Equal, KeepOps);
    Chain(s, u, FuncThenOps(c1, Equal, KeepOps).1, s1, s1.(front := KeepOps, back := KeepOps));
  }

  /** Third pass: colour off, ALWAYS, zeroing the stencil. */
  function StrokeClearSetup(cache: Cache): (Cache, seq<Cmd>) {
    var (c, f) := FuncThenOps(cache, Always, ZeroOps);
    (c, [ColorMask(false)] + f)
  }

  lemma {:induction false} StrokeClearSetupRuns(cache: Cache, s: GlState)
    requires Coherent(cache, s)
    ensures var (c, t) := StrokeClearSetup(cache);
      && Run(s, t) == s.(colorMask := false, func := Always, funcRef := 0, funcMask := ByteMask,
                         front := ZeroOps, back := ZeroOps)
      && Effects(s, t) == [] && Coherent(c, Run(s, t))
  {
    var (c, f) := FuncThenOps(cache, Always, ZeroOps);
    var s1 := s.(colorMask := false);
    RunOne(s, ColorMask(false));
    FuncThenOpsRuns(cache, s1, Always, ZeroOps);
    Chain(s, [ColorMask(false)], f, s1,
          s1.(func := Always, funcRef := 0, funcMask := ByteMask, front := ZeroOps, back := ZeroOps));
  }

  const StrokeTail: seq<Cmd> := [ColorMask(true), Disable(StencilTestCap)]

  /** `glnvg__stroke` with stencil strokes: three passes over the same
      strips, then colour back on and the stencil test off. */
  function StencilStrokeTrace(ctx: Context, cache: Cache, call: Call, paths: seq<GlPath>): (Cache, seq<Cmd>) {
    var (c1, a) := StrokeBaseSetup(ctx, cache, call);
    var (c2, b) := StrokeAaSetup(ctx, c1, call);
    var (c3, d) := StrokeClearSetup(c2);
    var strips := StripDraws(paths);
    (c3, (a + strips) + ((b + strips) + (d + strips + StrokeTail)))
  }

  /** `glnvg__stroke`: stencil strokes under `NVG_STENCIL_STROKES`, else the
      base block and one strip per path. */
  function StrokeTrace(ctx: Context, cache: Cache, call: Call, paths: seq<GlPath>): (Cache, seq<Cmd>) {
    if ctx.flags.stencilStrokes then StencilStrokeTrace(ctx, cache, call, paths)
    else
      var (c, u) := SetUniforms(ctx, cache, call.uniformOffset, call.image);
      (c, u + StripDraws(paths))
  }

  /** The states of the second and third stencil-stroke passes. */
  function StrokeAaState(ctx: Context, s: GlState, call: Call): GlState {
    StrokeBaseState(ctx, s, call).(uniformOffset := call.uniformOffset, front := KeepOps, back := KeepOps)
  }

  function StrokeClearState(ctx: Context, s: GlState, call: Call): GlState {
    StrokeAaState(ctx, s, call).(colorMask := false, func := Always, funcRef := 0, funcMask := ByteMask,
                                 front := ZeroOps, back := ZeroOps)
  }

  /** The clearing pass and the tail. */
  lemma {:induction false} StrokeClearPass(cache: Cache, s: GlState, paths: seq<GlPath>)
    requires Coherent(cache, s)
    ensures var (c, d) := StrokeClearSetup(cache);
      var sc := s.(colorMask := false, func := Always, funcRef := 0, funcMask := ByteMask,
                   front := ZeroOps, back := ZeroOps);
      && Effects(s, d + StripDraws(paths) + StrokeTail) == Under(sc, StripDraws(paths))
      && Run(s, d + StripDraws(paths) + StrokeTail) == sc.(colorMask := true, stencilTest := false)
      && Coherent(c, sc)
  {
    var (c, d) := StrokeClearSetup(cache);
    var sc := s.(colorMask := false, func := Always, funcRef := 0, funcMask := ByteMask,
                 front := ZeroOps, back := ZeroOps);
    StrokeClearSetupRuns(cache, s);
    ThenDraws(s, d, StripDraws(paths), sc);
    TwoQuiet(sc, StrokeTail[0], StrokeTail[1]);
    RunAppend(s, d + StripDraws(paths), StrokeTail);
  }

  /** The fringe pass and everything after it. */
  lemma {:induction false} StrokeAaOnwards(ctx: Context, cache: Cache, s: GlState, call: Call, paths: seq<GlPath>)
    requires Coherent(cache, s) && s == StrokeBaseState(ctx, s, call)
    ensures var (c2, b) := StrokeAaSetup(ctx, cache, call);
      var (c3, d) := StrokeClearSetup(c2);
      var strips := StripDraws(paths);
      var t := (b + strips) + (d + strips + StrokeTail);
      && Effects(s, t) == Under(StrokeAaState(ctx, s, call), strips) + Under(StrokeClearState(ctx, s, call), strips)
      && Run(s, t) == StrokeClearState(ctx, s, call).(colorMask := true, stencilTest := false)
      && Coherent(c3, StrokeClearState(ctx, s, call))
  {
    var (c2, b) := StrokeAaSetup(ctx, cache, call);
    var strips := StripDraws(paths);
    var sb := StrokeAaState(ctx, s, call);
    StrokeAaSetupRuns(ctx, cache, s, call);
    ThenDraws(s, b, strips, sb);
    StrokeClearPass(c2, sb, paths);
    RunAppend(s, b + strips, StrokeClearSetup(c2).1 + strips + StrokeTail);
  }

  /** The replay of a stencil stroke, exactly. */
  lemma {:induction false} StencilStrokeEffects(ctx: Context, cache: Cache, s: GlState, call: Call, paths: seq<GlPath>)
    requires Coherent(cache, s)
    ensures var (c, t) := StencilStrokeTrace(ctx, cache, call, paths);
      var strips := StripDraws(paths);
      && Effects(s, t) == Under(StrokeBaseState(ctx, s, call), strips)
           + (Under(StrokeAaState(ctx, s, call), strips) + Under(StrokeClearState(ctx, s, call), strips))
      && Run(s, t) == StrokeClearState(ctx, s, call).(colorMask := true, stencilTest := false)
      && Coherent(c, Run(s, t))
  {
    var (c1, a) := StrokeBaseSetup(ctx, cache, call);
    var (c2, b) := StrokeAaSetup(ctx, c1, call);
    var (c3, d) := StrokeClearSetup(c2);
    var strips := StripDraws(paths);
    var sa := StrokeBaseState(ctx, s, call);
    StrokeBaseSetupRuns(ctx, cache, s, call);
    ThenDraws(s, a, strips, sa);
    StrokeAaOnwards(ctx, c1, sa, call, paths);
    assert StrokeAaState(ctx, sa, call) == StrokeAaState(ctx, s, call);
    assert StrokeClearState(ctx, sa, call) == StrokeClearState(ctx, s, call);
    RunAppend(s, a + strips, (b + strips) + (d + strips + StrokeTail));
  }

  /** The stencil-stroke protocol, draw by draw: the first pass draws with
      the threshold block where the stencil is zero and increments it, so
      overlapping strips draw once; the second draws the fringes with the
      base block where it is still zero; the third, with colour off, resets
      the stencil to zero; afterwards colour is on and the stencil test off.
      Nothing changes the blend or culling. */
  lemma {:induction false} StencilStrokeProtocol(ctx: Context, cache: Cache, s: GlState, call: Call, paths: seq<GlPath>)
    requires Coherent(cache, s) && ctx.flags.stencilStrokes
    ensures var (c, t) := StrokeTrace(ctx, cache, call, paths);
      var e := Effects(s, t);
      var n := |paths|;
      var tex := TextureFor(ctx, call.image);
      && |e| == 3 * n
      && (forall k :: 0 <= k < n ==>
            && e[k].cmd == DrawArrays(TriangleStrip, paths[k].strokeOffset, paths[k].strokeCount)
            && StencilPass(e[k].state, Equal, IncrOps) && e[k].state.colorMask == s.colorMask
            && e[k].state.uniformOffset == call.uniformOffset + ctx.fragSize)
      && (forall k :: n <= k < 2 * n ==>
            && e[k].cmd == DrawArrays(TriangleStrip, paths[k - n].strokeOffset, paths[k - n].strokeCount)
            && StencilPass(e[k].state, Equal, KeepOps) && e[k].state.colorMask == s.colorMask
            && e[k].state.uniformOffset == call.uniformOffset)
      && (forall k :: 2 * n <= k < 3 * n ==>
            && e[k].cmd == DrawArrays(TriangleStrip, paths[k - 2 * n].strokeOffset, paths[k - 2 * n].strokeCount)
            && StencilPass(e[k].state, Always, ZeroOps) && !e[k].state.colorMask)
      && (forall k :: 0 <= k < |e| ==>
            e[k].state.texture == tex && e[k].state.blend == s.blend && e[k].state.cullFace == s.cullFace)
      && !Run(s, t).stencilTest && Run(s, t).colorMask
      && Run(s, t).cullFace == s.cullFace && Run(s, t).blend == s.blend
      && Coherent(c, Run(s, t))
  {
    StrokeIncrementPass(ctx, cache, s, call, paths);
    StrokeFringePass(ctx, cache, s, call, paths);
    StrokeResetPass(ctx, cache, s, call, paths);
    StencilStrokeKeepsBlend(ctx, cache, s, call, paths);
  }

  lemma {:induction false} StrokeIncrementPass(ctx: Context, cache: Cache, s: GlState, call: Call, paths: seq<GlPath>)
    requires Coherent(cache, s) && ctx.flags.stencilStrokes
    ensures var e := Effects(s, StrokeTrace(ctx, cache, call, paths).1);
      var n := |paths|;
      && |e| == 3 * n
      && (forall k :: 0 <= k < n ==>
            && e[k].cmd == DrawArrays(TriangleStrip, paths[k].strokeOffset, paths[k].strokeCount)
            && StencilPass(e[k].state, Equal, IncrOps) && e[k].state.colorMask == s.colorMask
            && e[k].state.uniformOffset == call.uniformOffset + ctx.fragSize)
  {
    StencilStrokeEffects(ctx, cache, s, call, paths);
    ThreePasses(StrokeBaseState(ctx, s, call), StrokeAaState(ctx, s, call), StrokeClearState(ctx, s, call),
                StripDraws(paths));
  }

  lemma {:induction false} StrokeFringePass(ctx: Context, cache: Cache, s: GlState, call: Call, paths: seq<GlPath>)
    requires Coherent(cache, s) && ctx.flags.stencilStrokes
    ensures var e := Effects(s, StrokeTrace(ctx, cache, call, paths).1);
      var n := |paths|;
      |e| == 3 * n && forall k :: n <= k < 2 * n ==>
        && e[k].cmd == DrawArrays(TriangleStrip, paths[k - n].strokeOffset, paths[k - n].strokeCount)
        && StencilPass(e[k].state, Equal, KeepOps) && e[k].state.colorMask == s.colorMask
        && e[k].state.uniformOffset == call.uniformOffset
  {
    StencilStrokeEffects(ctx, cache, s, call, paths);
    ThreePasses(StrokeBaseState(ctx, s, call), StrokeAaState(ctx, s, call), StrokeClearState(ctx, s, call),
                StripDraws(paths));
  }

  lemma {:induction false} StrokeResetPass(ctx: Context, cache: Cache, s: GlState, call: Call, paths: seq<GlPath>)
    requires Coherent(cache, s) && ctx.flags.stencilStrokes
    ensures var e := Effects(s, StrokeTrace(ctx, cache, call, paths).1);
      var n := |paths|;
      |e| == 3 * n && forall k :: 2 * n <= k < 3 * n ==>
        && e[k].cmd == DrawArrays(TriangleStrip, paths[k - 2 * n].strokeOffset, paths[k - 2 * n].strokeCount)
        && StencilPass(e[k].state, Always, ZeroOps) && !e[k].state.colorMask
  {
    StencilStrokeEffects(ctx, cache, s, call, paths);
    ThreePasses(StrokeBaseState(ctx, s, call), StrokeAaState(ctx, s, call), StrokeClearState(ctx, s, call),
                StripDraws(paths));
  }

  lemma {:induction false} StencilStrokeKeepsBlend(ctx: Context, cache: Cache, s: GlState, call: Call, paths: seq<GlPath>)
    requires Coherent(cache, s) && ctx.flags.stencilStrokes
    ensures var (c, t) := StrokeTrace(ctx, cache, call, paths);
      var e := Effects(s, t);
      && (forall k :: 0 <= k < |e| ==>
            e[k].state.texture == TextureFor(ctx, call.image) && e[k].state.blend == s.blend
            && e[k].state.cullFace == s.cullFace)
      && !Run(s, t).stencilTest && Run(s, t).colorMask
      && Run(s, t).cullFace == s.cullFace && Run(s, t).blend == s.blend
      && Coherent(c, Run(s, t))
  {
    StencilStrokeEffects(ctx, cache, s, call, paths);
    ThreePasses(StrokeBaseState(ctx, s, call), StrokeAaState(ctx, s, call), StrokeClearState(ctx, s, call),
                StripDraws(paths));
  }

  /** Indexing three passes over the same draws. */
  lemma {:induction false} ThreePasses(a: GlState, b: GlState, c: GlState, d: seq<Cmd>)
    ensures var e := Under(a, d) + (Under(b, d) + Under(c, d));
      var n := |d|;
      && |e| == 3 * n
      && (forall k :: 0 <= k < n ==> e[k] == Effect(a, d[k]))
      && (forall k :: n <= k < 2 * n ==> e[k] == Effect(b, d[k - n]))
      && (forall k :: 2 * n <= k < 3 * n ==> e[k] == Effect(c, d[k - 2 * n]))
  {
  }

  /** Without stencil strokes every strip draws once with the base block, in
      the state the stroke found. */
  lemma {:induction false} PlainStrokeProtocol(ctx: Context, cache: Cache, s: GlState, call: Call, paths: seq<GlPath>)
    requires Coherent(cache, s) && !ctx.flags.stencilStrokes
    ensures var (c, t) := StrokeTrace(ctx, cache, call, paths);
      var st := s.(uniformOffset := call.uniformOffset, texture := TextureFor(ctx, call.image));
      && Effects(s, t) == Under(st, StripDraws(paths))
      && Run(s, t) == st
      && Coherent(c, Run(s, t))
  {
    var (c, u) := SetUniforms(ctx, cache, call.uniformOffset, call.image);
    SetUniformsRuns(ctx, cache, s, call.uniformOffset, call.image);
    ThenDraws(s, u, StripDraws(paths), s.(uniformOffset := call.uniformOffset, texture := TextureFor(ctx, call.image)));
  }

  // ---------------------------------------------------------------------
  // One call, and the frame's calls in order

  /** The path records a call names. */
  function CallPaths(ctx: Context, call: Call): (ps: seq<GlPath>)
    requires Dispatchable(ctx, call)
    ensures |ps| == call.pathCount
    ensures forall k :: 0 <= k < |ps| ==> ps[k] == ctx.paths[call.pathOffset + k]
  {
    ctx.paths[call.pathOffset .. call.pathOffset + call.pathCount]
  }

  /** The draw routine for the call's type; a call of no type draws nothing. */
  function DispatchTrace(ctx: Context, cache: Cache, call: Call): (Cache, seq<Cmd>)
    requires Dispatchable(ctx, call)
  {
    match call.kind
    case Fill => FillTrace(ctx, cache, call, CallPaths(ctx, call))
    case ConvexFill => ConvexFillTrace(ctx, cache, call, CallPaths(ctx, call))
    case Stroke => StrokeTrace(ctx, cache, call, CallPaths(ctx, call))
    case TrianglesCall => TrianglesTrace(ctx, cache, call)
    case CallNone => (cache, [])
  }

  /** One iteration of `render`'s loop: the call's blend through the cache,
      then its draw routine. */
  function CallTrace(ctx: Context, cache: Cache, call: Call): (Cache, seq<Cmd>)
    requires Dispatchable(ctx, call)
  {
    var (c1, b) := SetBlend(cache, call.blend);
    var (c2, d) := DispatchTrace(ctx, c1, call);
    (c2, b + d)
  }

  /** The state `render` keeps between calls: the cache describes GL, and
      colour writes and culling are on. */
  predicate BetweenCalls(cache: Cache, s: GlState) {
    Coherent(cache, s) && s.colorMask && s.cullFace
  }

  /** Effects that are all draws under one blend. */
  predicate DrawsWithBlend(e: seq<Effect>, b: Blend) {
    forall k :: 0 <= k < |e| ==> e[k].cmd.DrawArrays? && e[k].state.blend == b
  }

  lemma {:induction false} UnderWithBlend(st: GlState, d: seq<Cmd>)
    requires AllDraws(d)
    ensures DrawsWithBlend(Under(st, d), st.blend)
  {
  }

  lemma {:induction false} WithBlendAppend(e1: seq<Effect>, e2: seq<Effect>, b: Blend)
    requires DrawsWithBlend(e1, b) && DrawsWithBlend(e2, b)
    ensures DrawsWithBlend(e1 + e2, b)
  {
  }

  lemma {:induction false} FillBetween(ctx: Context, cache: Cache, s: GlState, call: Call, paths: seq<GlPath>)
    requires BetweenCalls(cache, s)
    ensures var (c, t) := FillTrace(ctx, cache, call, paths);
      BetweenCalls(c, Run(s, t)) && Run(s, t).blend == s.blend && DrawsWithBlend(Effects(s, t), s.blend)
  {
    var s1 := StencilWriteState(ctx, s, call);
    var s2 := FringeState(ctx, s1, call);
    var strips := if ctx.flags.antialias then StripDraws(paths) else [];
    FillEffects(ctx, cache, s, call, paths);
    UnderWithBlend(s1, FanDraws(paths));
    UnderWithBlend(s2, strips);
    var last := [Effect(CoverState(ctx, s, call), DrawArrays(TriangleStrip, call.triangleOffset, call.triangleCount))];
    WithBlendAppend(Under(s2, strips), last, s.blend);
    WithBlendAppend(Under(s1, FanDraws(paths)), Under(s2, strips) + last, s.blend);
  }

  lemma {:induction false} StrokeBetween(ctx: Context, cache: Cache, s: GlState, call: Call, paths: seq<GlPath>)
    requires BetweenCalls(cache, s)
    ensures var (c, t) := StrokeTrace(ctx, cache, call, paths);
      BetweenCalls(c, Run(s, t)) && Run(s, t).blend == s.blend && DrawsWithBlend(Effects(s, t), s.blend)
  {
    var strips := StripDraws(paths);
    if ctx.flags.stencilStrokes {
      StencilStrokeEffects(ctx, cache, s, call, paths);
      UnderWithBlend(StrokeBaseState(ctx, s, call), strips);
      UnderWithBlend(StrokeAaState(ctx, s, call), strips);
      UnderWithBlend(StrokeClearState(ctx, s, call), strips);
      WithBlendAppend(Under(StrokeAaState(ctx, s, call), strips), Under(StrokeClearState(ctx, s, call), strips), s.blend);
      WithBlendAppend(Under(StrokeBaseState(ctx, s, call), strips),
                      Under(StrokeAaState(ctx, s, call), strips) + Under(StrokeClearState(ctx, s, call), strips), s.blend);
    } else {
      PlainStrokeProtocol(ctx, cache, s, call, paths);
      UnderWithBlend(s.(uniformOffset := call.uniformOffset, texture := TextureFor(ctx, call.image)), strips);
    }
  }

  /** A draw routine leaves colour writes and culling on, changes no blend,
      and issues only draws, each under the blend it started with. */
  lemma {:induction false} DispatchRuns(ctx: Context, cache: Cache, s: GlState, call: Call)
    requires Dispatchable(ctx, call) && BetweenCalls(cache, s)
    ensures var (c, t) := DispatchTrace(ctx, cache, call);
      BetweenCalls(c, Run(s, t)) && Run(s, t).blend == s.blend && DrawsWithBlend(Effects(s, t), s.blend)
  {
    var st := s.(uniformOffset := call.uniformOffset, texture := TextureFor(ctx, call.image));
    match call.kind {
      case Fill => FillBetween(ctx, cache, s, call, CallPaths(ctx, call));
      case ConvexFill =>
        ConvexFillProtocol(ctx, cache, s, call, CallPaths(ctx, call));
        UnderWithBlend(st, ConvexDraws(CallPaths(ctx, call)));
      case Stroke => StrokeBetween(ctx, cache, s, call, CallPaths(ctx, call));
      case TrianglesCall => TrianglesProtocol(ctx, cache, s, call);
      case CallNone =>
    }
  }

  /** Every draw of a call runs under that call's blend. */
  lemma {:induction false} CallRuns(ctx: Context, cache: Cache, s: GlState, call: Call)
    requires Dispatchable(ctx, call) && BetweenCalls(cache, s)
    ensures var (c, t) := CallTrace(ctx, cache, call);
      && BetweenCalls(c, Run(s, t))
      && Effects(s, t) == Effects(s.(blend := call.blend), DispatchTrace(ctx, SetBlend(cache, call.blend).0, call).1)
      && DrawsWithBlend(Effects(s, t), call.blend)
  {
    var (c1, b) := SetBlend(cache, call.blend);
    var (c2, d) := DispatchTrace(ctx, c1, call);
    var s1 := s.(blend := call.blend);
    SetBlendRuns(cache, s, call.blend);
    DispatchRuns(ctx, c1, s1, call);
    RunAppend(s, b, d);
  }

  /** A loop over calls: each step takes the cache and a call and gives the
      new cache and the commands; the commands are concatenated in order. */
  function Loop(step: (Cache, Call) -> (Cache, seq<Cmd>), cache: Cache, calls: seq<Call>)
    : (Cache, seq<Cmd>)
    decreases |calls|
  {
    if |calls| == 0 then (cache, [])
    else
      var h := step(cache, calls[0]);
      var r := Loop(step, h.0, calls[1..]);
      (r.0, h.1 + r.1)
  }

  /** A loop splits after any prefix of its calls, the rest continuing from
      the cache the prefix leaves. */
  lemma {:induction false} LoopSplit(step: (Cache, Call) -> (Cache, seq<Cmd>), cache: Cache,
                                     calls: seq<Call>, j: nat)
    requires j <= |calls|
    ensures var p := Loop(step, cache, calls[..j]);
      var r := Loop(step, p.0, calls[j..]);
      Loop(step, cache, calls) == (r.0, p.1 + r.1)
    decreases j
  {
    if j == 0 {
      assert calls[..0] == [] && calls[0..] == calls;
      var r := Loop(step, cache, calls);
      assert [] + r.1 == r.1;
    } else {
      var h := step(cache, calls[0]);
      var rest := calls[1..];
      LoopSplit(step, h.0, rest, j - 1);
      assert calls[..j][0] == calls[0] && calls[..j][1..] == rest[..j - 1];
      assert rest[j - 1..] == calls[j..];
      var p := Loop(step, h.0, rest[..j - 1]);
      var r := Loop(step, p.0, calls[j..]);
      assert Loop(step, cache, calls[..j]) == (p.0, h.1 + p.1);
      assert h.1 + (p.1 + r.1) == (h.1 + p.1) + r.1;
    }
  }

  /** One iteration of `render`'s loop as a step; a call that cannot be
      dispatched (never present in a frame) issues nothing. */
  function CallStep(ctx: Context): (Cache, Call) -> (Cache, seq<Cmd>) {
    (cache: Cache, call: Call) => if Dispatchable(ctx, call) then CallTrace(ctx, cache, call) else (cache, [])
  }

  /** `render`'s loop over the frame's calls. */
  function CallsTrace(ctx: Context, cache: Cache, calls: seq<Call>): (Cache, seq<Cmd>)
    requires forall j :: 0 <= j < |calls| ==> Dispatchable(ctx, calls[j])
  {
    Loop(CallStep(ctx), cache, calls)
  }

  /** Every draw of the loop runs under the blend of some call of the frame,
      the loop issues nothing but draws, and it ends between calls. */
  lemma {:induction false} CallsRun(ctx: Context, cache: Cache, s: GlState, calls: seq<Call>)
    requires forall j :: 0 <= j < |calls| ==> Dispatchable(ctx, calls[j])
    requires BetweenCalls(cache, s)
    ensures var (c, t) := CallsTrace(ctx, cache, calls);
      && BetweenCalls(c, Run(s, t))
      && (forall k :: 0 <= k < |Effects(s, t)| ==>
            && Effects(s, t)[k].cmd.DrawArrays?
            && exists j :: 0 <= j < |calls| && Effects(s, t)[k].state.blend == calls[j].blend)
    decreases |calls|
  {
    if |calls| > 0 {
      var (c1, t1) := CallTrace(ctx, cache, calls[0]);
      var (c2, t2) := CallsTrace(ctx, c1, calls[1..]);
      assert CallsTrace(ctx, cache, calls) == (c2, t1 + t2);
      var s1 := Run(s, t1);
      CallRuns(ctx, cache, s, calls[0]);
      CallsRun(ctx, c1, s1, calls[1..]);
      RunAppend(s, t1, t2);
      var e := Effects(s, t1 + t2);
      forall k | 0 <= k < |e|
        ensures e[k].cmd.DrawArrays? && exists j :: 0 <= j < |calls| && e[k].state.blend == calls[j].blend
      {
        if k < |Effects(s, t1)| {
          assert e[k] == Effects(s, t1)[k];
          assert e[k].state.blend == calls[0].blend;
        } else {
          assert e[k] == Effects(s1, t2)[k - |Effects(s, t1)|];
          var j :| 0 <= j < |calls[1..]| && e[k].state.blend == calls[1..][j].blend;
          assert calls[1..][j] == calls[j + 1];
        }
      }
    }
  }

  /** The loop is the calls' own traces in order: it splits after any
      prefix of the calls, the rest continuing from the prefix's cache. */
  lemma {:induction false} CallsSplit(ctx: Context, cache: Cache, calls: seq<Call>, j: nat)
    requires forall i :: 0 <= i < |calls| ==> Dispatchable(ctx, calls[i])
    requires j <= |calls|
    ensures var p := CallsTrace(ctx, cache, calls[..j]);
      var r := CallsTrace(ctx, p.0, calls[j..]);
      CallsTrace(ctx, cache, calls) == (r.0, p.1 + r.1)
  {
    LoopSplit(CallStep(ctx), cache, calls, j);
  }

  /** Each call is dispatched in turn, from a state between calls: after
      any prefix of the calls comes exactly the next call's trace. */
  lemma {:induction false} CallsInOrder(ctx: Context, cache: Cache, s: GlState, calls: seq<Call>, j: nat)
    requires forall i :: 0 <= i < |calls| ==> Dispatchable(ctx, calls[i])
    requires BetweenCalls(cache, s) && j < |calls|
    ensures var (cp, tp) := CallsTrace(ctx, cache, calls[..j]);
      var (cj, tj) := CallTrace(ctx, cp, calls[j]);
      && BetweenCalls(cp, Run(s, tp))
      && CallsTrace(ctx, cache, calls).1 == tp + (tj + CallsTrace(ctx, cj, calls[j + 1..]).1)
  {
    CallsSplit(ctx, cache, calls, j);
    CallsRun(ctx, cache, s, calls[..j]);
    assert calls[j..][0] == calls[j] && calls[j..][1..] == calls[j + 1..];
  }

  // ---------------------------------------------------------------------
  // render

  /** A blend of GL_INVALID_ENUM factors: after `render` resets the cache to
      it, the first call always sends its blend. */
  const UnsetBlend: Blend := Blend(InvalidEnum, InvalidEnum, InvalidEnum, InvalidEnum)

  /** The cache as `render` resets it, matching the state its setup sets. */
  const ResetCache: Cache := Cache(0, FullMask, Always, 0, FullMask, UnsetBlend)

  /** Shader on, back faces culled with counter-clockwise front faces. */
  const SetupCulling: seq<Cmd> := [Gl(UseShader), Enable(CullFaceCap), Gl(CullFaceBack), Gl(FrontFaceCcw)]

  /** Blending on, depth and scissor tests off, colour writes on. */
  const SetupPipeline: seq<Cmd> := [Enable(BlendCap), Disable(DepthTestCap), Disable(ScissorTestCap), ColorMask(true)]

  /** Full stencil write mask, KEEP, ALWAYS 0 under the full mask. */
  const SetupStencil: seq<Cmd> := [StencilMaskCmd(FullMask), StencilOpBoth(KeepOps), StencilFuncCmd(Always, 0, FullMask)]

  /** Texture unit 0 with no texture. */
  const SetupTexture: seq<Cmd> := [Gl(ActiveTexture0), BindTexture(0)]

  /** `render`'s GL setup. */
  const Setup: seq<Cmd> := SetupCulling + SetupPipeline + (SetupStencil + SetupTexture)

  /** The GL state the first call starts from, whatever the state before. */
  function SetupState(s: GlState): GlState {
    s.(cullFace := true, colorMask := true, stencilMask := FullMask, front := KeepOps, back := KeepOps,
       func := Always, funcRef := 0, funcMask := FullMask, texture := 0)
  }

  lemma {:induction false} FourQuiet(s: GlState, c1: Cmd, c2: Cmd, c3: Cmd, c4: Cmd)
    requires !IsEffect(c1) && !IsEffect(c2) && !IsEffect(c3) && !IsEffect(c4)
    ensures Run(s, [c1, c2, c3, c4]) == Step(Step(Step(Step(s, c1), c2), c3), c4)
    ensures Effects(s, [c1, c2, c3, c4]) == []
  {
    var s2 := Step(Step(s, c1), c2);
    TwoQuiet(s, c1, c2);
    TwoQuiet(s2, c3, c4);
    Chain(s, [c1, c2], [c3, c4], s2, Step(Step(s2, c3), c4));
    assert [c1, c2, c3, c4] == [c1, c2] + [c3, c4];
  }

  lemma {:induction false} ThreeQuiet(s: GlState, c1: Cmd, c2: Cmd, c3: Cmd)
    requires !IsEffect(c1) && !IsEffect(c2) && !IsEffect(c3)
    ensures Run(s, [c1, c2, c3]) == Step(Step(Step(s, c1), c2), c3)
    ensures Effects(s, [c1, c2, c3]) == []
  {
    var s2 := Step(Step(s, c1), c2);
    TwoQuiet(s, c1, c2);
    RunOne(s2, c3);
    Chain(s, [c1, c2], [c3], s2, Step(s2, c3));
    assert [c1, c2, c3] == [c1, c2] + [c3];
  }

  lemma {:induction false} SetupRuns(s: GlState)
    ensures Run(s, Setup) == SetupState(s)
    ensures Effects(s, Setup) == []
    ensures BetweenCalls(ResetCache, SetupState(s))
  {
    var s1 := s.(cullFace := true);
    var s2 := s1.(colorMask := true);
    var s3 := s2.(stencilMask := FullMask, front := KeepOps, back := KeepOps, func := Always, funcRef := 0,
                  funcMask := FullMask);
    FourQuiet(s, SetupCulling[0], SetupCulling[1], SetupCulling[2], SetupCulling[3]);
    FourQuiet(s1, SetupPipeline[0], SetupPipeline[1], SetupPipeline[2], SetupPipeline[3]);
    ThreeQuiet(s2, SetupStencil[0], SetupStencil[1], SetupStencil[2]);
    TwoQuiet(s3, SetupTexture[0], SetupTexture[1]);
    Chain(s, SetupCulling, SetupPipeline, s1, s2);
    Chain(s2, SetupStencil, SetupTexture, s3, SetupState(s));
    Chain(s, SetupCulling + SetupPipeline, SetupStencil + SetupTexture, s2, SetupState(s));
  }

  /** The uniform blocks and the vertices go to their buffers, and the vertex
      layout is declared: position at byte 0, texture coordinate at byte 8. */
  function Uploads(ctx: Context): seq<Cmd> {
    [Gl(BindBuffer(UniformBuffer, ctx.fragBuf)), BufferData(UniformBuffer, |ctx.uniforms| * ctx.fragSize)]
    + [Gl(BindVertexArray(ctx.vertArr)), Gl(BindBuffer(ArrayBuffer, ctx.vertBuf)),
       BufferData(ArrayBuffer, |ctx.verts| * VertexSize)]
    + [Gl(EnableVertexAttribArray(0)), Gl(EnableVertexAttribArray(1)),
       Gl(VertexAttribPointer(0, 0)), Gl(VertexAttribPointer(1, 8)),
       Gl(SetTextureAndView(0, ctx.viewW, ctx.viewH)), Gl(BindBuffer(UniformBuffer, ctx.fragBuf))]
  }

  /** Commands that change none of the modelled state. */
  predicate AllInert(t: seq<Cmd>) {
    forall k :: 0 <= k < |t| ==> t[k].Gl?
  }

  lemma {:induction false} InertRuns(s: GlState, t: seq<Cmd>)
    requires AllInert(t)
    ensures Run(s, t) == s && Effects(s, t) == []
    decreases |t|
  {
    if |t| > 0 {
      assert AllInert(t[1..]) by {
        forall k | 0 <= k < |t[1..]| ensures t[1..][k].Gl? {
          assert t[1..][k] == t[k + 1];
        }
      }
      InertRuns(s, t[1..]);
    }
  }

  lemma {:induction false} InertThenEffect(s: GlState, t: seq<Cmd>, c: Cmd)
    requires AllInert(t) && (c.BufferData? || c.DrawArrays?)
    ensures Run(s, t + [c]) == s && Effects(s, t + [c]) == [Effect(s, c)]
  {
    InertRuns(s, t);
    RunOne(s, c);
    RunAppend(s, t, [c]);
  }

  /** The uploads change no modelled state; their effects are the two buffer
      uploads, uniforms first, sized by the frame's block and vertex counts. */
  lemma {:induction false} UploadsRun(ctx: Context, s: GlState)
    ensures Run(s, Uploads(ctx)) == s
    ensures Effects(s, Uploads(ctx)) ==
      [Effect(s, BufferData(UniformBuffer, |ctx.uniforms| * ctx.fragSize)),
       Effect(s, BufferData(ArrayBuffer, |ctx.verts| * VertexSize))]
  {
    var a := [Gl(BindBuffer(UniformBuffer, ctx.fragBuf)), BufferData(UniformBuffer, |ctx.uniforms| * ctx.fragSize)];
    var b := [Gl(BindVertexArray(ctx.vertArr)), Gl(BindBuffer(ArrayBuffer, ctx.vertBuf)),
              BufferData(ArrayBuffer, |ctx.verts| * VertexSize)];
    var c := [Gl(EnableVertexAttribArray(0)), Gl(EnableVertexAttribArray(1)),
              Gl(VertexAttribPointer(0, 0)), Gl(VertexAttribPointer(1, 8)),
              Gl(SetTextureAndView(0, ctx.viewW, ctx.viewH)), Gl(BindBuffer(UniformBuffer, ctx.fragBuf))];
    assert a == a[..1] + [a[1]];
    InertThenEffect(s, a[..1], a[1]);
    assert b == b[..2] + [b[2]];
    InertThenEffect(s, b[..2], b[2]);
    InertRuns(s, c);
    RunAppend(s, a, b);
    RunAppend(s, a + b, c);
  }

  /** Vertex attributes and the vertex array released, culling off, no
      program, and (through the cache) no texture. */
  function Teardown(cache: Cache): (Cache, seq<Cmd>) {
    var (c, t) := SetTexture(cache, 0);
    (c, [Gl(DisableVertexAttribArray(0)), Gl(DisableVertexAttribArray(1)), Gl(BindVertexArray(0)),
         Disable(CullFaceCap), Gl(BindBuffer(ArrayBuffer, 0)), Gl(UseProgramNone)] + t)
  }

  lemma {:induction false} TeardownRuns(cache: Cache, s: GlState)
    requires Coherent(cache, s)
    ensures var (c, t) := Teardown(cache);
      && Run(s, t) == s.(cullFace := false, texture := 0)
      && Effects(s, t) == [] && Coherent(c, Run(s, t))
  {
    var (c, tex) := SetTexture(cache, 0);
    var head := [Gl(DisableVertexAttribArray(0)), Gl(DisableVertexAttribArray(1)), Gl(BindVertexArray(0)),
                 Disable(CullFaceCap), Gl(BindBuffer(ArrayBuffer, 0)), Gl(UseProgramNone)];
    var s1 := s.(cullFace := false);
    InertRuns(s, head[..3]);
    RunOne(s, head[3]);
    InertRuns(s1, head[4..]);
    Chain(s, head[..3], [head[3]], s, s1);
    Chain(s, head[..3] + [head[3]], head[4..], s1, s1);
    assert head == head[..3] + [head[3]] + head[4..];
    SetTextureRuns(cache, s1, 0);
    Chain(s, head, tex, s1, s1.(texture := 0));
  }

  /** `render`: with calls staged, the GL setup, the uploads, every call in
      order and the teardown; then, always, `clear`. */
  function Render(ctx: Context): (r: (Context, seq<Cmd>))
    requires CallsDispatchable(ctx)
    ensures r.0 == Clear(ctx).(cache := r.0.cache)
    ensures ctx.calls == [] ==> r == (Clear(ctx), [])
  {
    if |ctx.calls| == 0 then (Clear(ctx), [])
    else
      var (c1, t1) := CallsTrace(ctx, ResetCache, ctx.calls);
      var (c2, t2) := Teardown(c1);
      (Clear(ctx).(cache := c2), Setup + (Uploads(ctx) + (t1 + t2)))
  }

  /** `glnvg__renderFlush`. */
  function RenderFlush(ctx: Context): (r: (Context, seq<Cmd>))
    requires CallsDispatchable(ctx)
    ensures r == Render(ctx)
  {
    Render(ctx)
  }

  /** The frame as GL sees it: the two uploads first, then the calls' own
      traces from the known setup state, every one of whose effects is a
      draw under the blend of some call of the frame; afterwards culling is
      off, no texture is bound, and the cache describes GL. */
  lemma {:induction false} RenderProtocol(ctx: Context, s: GlState)
    requires CallsDispatchable(ctx) && ctx.calls != []
    ensures var (c, t) := Render(ctx);
      var e := Effects(s, t);
      var s0 := SetupState(s);
      && |e| >= 2
      && e[0] == Effect(s0, BufferData(UniformBuffer, |ctx.uniforms| * ctx.fragSize))
      && e[1] == Effect(s0, BufferData(ArrayBuffer, |ctx.verts| * VertexSize))
      && e[2..] == Effects(s0, CallsTrace(ctx, ResetCache, ctx.calls).1)
      && (forall k :: 2 <= k < |e| ==>
            && e[k].cmd.DrawArrays?
            && exists j :: 0 <= j < |ctx.calls| && e[k].state.blend == ctx.calls[j].blend)
      && !Run(s, t).cullFace && Run(s, t).texture == 0 && Run(s, t).colorMask
      && Coherent(c.cache, Run(s, t))
  {
    var (c1, t1) := CallsTrace(ctx, ResetCache, ctx.calls);
    var (c2, t2) := Teardown(c1);
    var s0 := SetupState(s);
    SetupRuns(s);
    UploadsRun(ctx, s0);
    CallsRun(ctx, ResetCache, s0, ctx.calls);
    var s1 := Run(s0, t1);
    TeardownRuns(c1, s1);
    RunAppend(s0, t1, t2);
    RunAppend(s0, Uploads(ctx), t1 + t2);
    RunAppend(s, Setup, Uploads(ctx) + (t1 + t2));
    var e := Effects(s0, t1);
    assert Effects(s0, t1 + t2) == e;
    var u := [Effect(s0, BufferData(UniformBuffer, |ctx.uniforms| * ctx.fragSize)),
              Effect(s0, BufferData(ArrayBuffer, |ctx.verts| * VertexSize))];
    assert Effects(s, Render(ctx).1) == u + e;
    assert (u + e)[2..] == e;
  }
}
