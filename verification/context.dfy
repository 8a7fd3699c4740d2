/** The backend context (`GLNVGcontext`): the per-frame arenas of calls,
    paths, vertices and uniform blocks, the texture registry, and the cache
    of GL state the dispatcher consults.

    The arenas are sequences whose lengths are the used counts; each growable
    arena also carries an `Arena` recording its capacity. The texture id
    counter, a process-wide static in the texture class, is kept here as
    `lastId` so that id assignment can be stated against the registry.
 */
module GlContext {
  import opened GlModel
  import opened NvgTypes
  import opened Textures
  import opened Arenas
  import opened PaintConversion

  datatype CallType = CallNone | Fill | ConvexFill | Stroke | TrianglesCall

  /** One batched draw (`GLNVGcall`). Offsets are indices into the path and
      vertex arenas; `uniformOffset` is a byte offset into the uniform arena. */
  datatype Call = Call(
    kind: CallType,
    image: int,
    pathOffset: int,
    pathCount: int,
    triangleOffset: int,
    triangleCount: int,
    uniformOffset: int,
    blend: Blend)

  /** A value-initialised blend: every factor is GL_ZERO. */
  const ZeroBlend: Blend := Blend(Zero, Zero, Zero, Zero)

  /** The record `push_back({})` appends: every field zero. */
  const EmptyCall: Call := Call(CallNone, 0, 0, 0, 0, 0, 0, ZeroBlend)

  /** One staged sub-path (`GLNVGpath`): its fill and stroke vertex ranges. */
  datatype GlPath = GlPath(fillOffset: int, fillCount: int, strokeOffset: int, strokeCount: int)

  const ZeroPath: GlPath := GlPath(0, 0, 0, 0)

  /** The dispatcher's cached copy of the GL state it elides calls against. */
  datatype Cache = Cache(
    boundTexture: int,
    stencilMask: int,
    func: StencilFunc,
    funcRef: int,
    funcMask: int,
    blend: Blend)

  /** A freshly constructed context's cache: all fields zero. */
  const ZeroCache: Cache := Cache(0, 0, FuncUnset, 0, 0, ZeroBlend)

  datatype Context = Context(
    flags: CreateFlags,
    fragSize: nat,
    textures: map<int, Texture>,
    lastId: nat,
    dummyTex: int,
    viewW: real,
    viewH: real,
    vertArr: int,
    vertBuf: int,
    fragBuf: int,
    calls: seq<Call>,
    paths: seq<GlPath>,
    vertArena: Arena,
    verts: seq<Vertex>,
    uniformArena: Arena,
    uniforms: seq<FragUniforms>,
    cache: Cache)

  /** The context `nvgCreateGL3` allocates before `initialize`: the given
      flags and every other member zero or empty. */
  function NewContext(flags: CreateFlags, lastId: nat): (ctx: Context)
    ensures ArenasAgree(ctx) && RegistryInv(ctx)
    ensures ctx.calls == [] && ctx.textures == map[]
  {
    Context(flags, 0, map[], lastId, 0, 0.0, 0.0, 0, 0, 0,
            [], [], Arena(0, 0), [], Arena(0, 0), [], ZeroCache)
  }

  /** The used counts of the growable arenas are the lengths of their
      contents, and no arena holds more than its capacity. */
  predicate ArenasAgree(ctx: Context) {
    && |ctx.verts| == ctx.vertArena.count && WellFormed(ctx.vertArena)
    && |ctx.uniforms| == ctx.uniformArena.count && WellFormed(ctx.uniformArena)
  }

  /** A call the dispatcher can replay: its blend is one GL accepts and its
      path records lie inside the path arena. */
  predicate Dispatchable(ctx: Context, call: Call) {
    && ValidBlend(call.blend)
    && 0 <= call.pathOffset && 0 <= call.pathCount && call.pathOffset + call.pathCount <= |ctx.paths|
  }

  predicate CallsDispatchable(ctx: Context) {
    forall j :: 0 <= j < |ctx.calls| ==> Dispatchable(ctx, ctx.calls[j])
  }

  /** Every registered texture sits under its own id, and ids come from the
      counter: positive and at most its current value. */
  predicate RegistryInv(ctx: Context) {
    forall k :: k in ctx.textures ==> ctx.textures[k].id == k && 1 <= k <= ctx.lastId
  }

  /** `clear`: the frame's vertex, path, call and uniform counts drop to zero.
      Capacities, the registry and everything else are kept. */
  function Clear(ctx: Context): (c: Context)
    ensures c.calls == [] && c.paths == [] && c.verts == [] && c.uniforms == []
    ensures c.vertArena.count == 0 && c.uniformArena.count == 0
    ensures c.vertArena.capacity == ctx.vertArena.capacity
    ensures c.uniformArena.capacity == ctx.uniformArena.capacity
    ensures c.textures == ctx.textures && c.lastId == ctx.lastId && c.dummyTex == ctx.dummyTex
    ensures c.cache == ctx.cache && c.flags == ctx.flags && c.fragSize == ctx.fragSize
    ensures c.viewW == ctx.viewW && c.viewH == ctx.viewH
    ensures c.vertArr == ctx.vertArr && c.vertBuf == ctx.vertBuf && c.fragBuf == ctx.fragBuf
    ensures ArenasAgree(ctx) ==> ArenasAgree(c)
    ensures RegistryInv(ctx) ==> RegistryInv(c)
  {
    ctx.(calls := [], paths := [], verts := [], uniforms := [],
         vertArena := ctx.vertArena.(count := 0), uniformArena := ctx.uniformArena.(count := 0))
  }

  /** `glnvg__renderCancel` drops the frame exactly as `clear` does. */
  function RenderCancel(ctx: Context): (c: Context)
    ensures c == Clear(ctx)
  {
    Clear(ctx)
  }

  /** Clearing twice is clearing once, and after a clear the next vertex and
      uniform allocations start at offset 0. */
  lemma ClearIdempotent(ctx: Context, n: nat, m: nat, ok: bool)
    ensures Clear(Clear(ctx)) == Clear(ctx)
    ensures var r := AllocVerts(Clear(ctx).vertArena, n, ok).1; r == 0 || r == -1
    ensures var r := AllocFragUniforms(Clear(ctx).uniformArena, m, ctx.fragSize, ok).1; r == 0 || r == -1
  {
  }

  /** `glnvg__allocCall`: appends a zeroed call and returns its index. It
      cannot fail. */
  function AllocCall(ctx: Context): (r: (Context, nat))
    ensures r.1 == |ctx.calls| && r.0.calls == ctx.calls + [EmptyCall]
    ensures r.0.paths == ctx.paths && r.0.verts == ctx.verts && r.0.uniforms == ctx.uniforms
  {
    (ctx.(calls := ctx.calls + [EmptyCall]), |ctx.calls|)
  }

  /** `glnvg__allocPaths`: resizes the path arena by `n` zeroed records and
      returns the old size. It never returns -1. */
  function AllocPaths(ctx: Context, n: nat): (r: (Context, nat))
    ensures r.1 == |ctx.paths| && |r.0.paths| == |ctx.paths| + n
    ensures r.0.paths[..|ctx.paths|] == ctx.paths
    ensures forall k :: |ctx.paths| <= k < |r.0.paths| ==> r.0.paths[k] == ZeroPath
    ensures r.0.calls == ctx.calls && r.0.verts == ctx.verts && r.0.uniforms == ctx.uniforms
  {
    (ctx.(paths := ctx.paths + seq(n, _ => ZeroPath)), |ctx.paths|)
  }

  // ---------------------------------------------------------------------
  // Texture registry

  datatype Option<T> = None | Some(value: T)

  /** `glnvg__findTexture`. */
  function FindTexture(ctx: Context, id: int): (r: Option<Texture>)
    ensures r.Some? <==> id in ctx.textures
    ensures r.Some? ==> r.value == ctx.textures[id]
  {
    if id in ctx.textures then Some(ctx.textures[id]) else None
  }

  /** `unordered_map::insert`: adds the entry only when the key is absent. */
  function Insert(m: map<int, Texture>, tex: Texture): (r: map<int, Texture>)
    ensures tex.id in r && r.Keys == m.Keys + {tex.id}
    ensures tex.id in m ==> r == m
    ensures tex.id !in m ==> r[tex.id] == tex
    ensures forall k :: k in m ==> r[k] == m[k]
  {
    if tex.id in m then m else m[tex.id := tex]
  }

  /** Registers a texture built from the counter; the counter moves on. */
  function Register(ctx: Context, tex: Texture, last: nat): (c: Context)
  {
    ctx.(textures := Insert(ctx.textures, tex), lastId := last)
  }

  /** `glnvg__renderCreateTexture`: loads a new texture under the next id and
      registers it. Loading cannot fail, so the id is always returned. */
  function CreateTexture(ctx: Context, handle: int, pixelType: PixelType, w: int, h: int, flags: ImageFlags)
    : (r: (Context, int, seq<Cmd>))
    ensures r.1 == ctx.lastId + 1 && r.0.lastId == r.1
    ensures r.2 == Load(ctx.lastId, handle, w, h, pixelType, flags).2
    ensures r.1 in r.0.textures
    ensures RegistryInv(ctx) ==>
      && RegistryInv(r.0)
      && r.1 !in ctx.textures
      && r.0.textures == ctx.textures[r.1 := Texture(r.1, handle, w, h, pixelType, flags)]
    ensures r.0.calls == ctx.calls && r.0.verts == ctx.verts && r.0.uniforms == ctx.uniforms
    ensures r.0 == ctx.(textures := r.0.textures, lastId := r.0.lastId)
  {
    var (tex, last, trace) := Load(ctx.lastId, handle, w, h, pixelType, flags);
    (Register(ctx, tex, last), tex.id, trace)
  }

  /** `nvglCreateImageFromHandleGL3`: wraps an existing GL texture and
      registers it; no GL call is made. */
  function CreateImageFromHandle(ctx: Context, handle: int, w: int, h: int, flags: ImageFlags)
    : (r: (Context, int))
    ensures r.1 == ctx.lastId + 1 && r.0.lastId == r.1
    ensures r.1 in r.0.textures
    ensures RegistryInv(ctx) ==>
      && RegistryInv(r.0)
      && r.1 !in ctx.textures
      && r.0.textures == ctx.textures[r.1 := Texture(r.1, handle, w, h, TextureRgba, flags)]
    ensures r.0 == ctx.(textures := r.0.textures, lastId := r.0.lastId)
  {
    var (tex, last) := FromHandle(ctx.lastId, handle, w, h, flags);
    (Register(ctx, tex, last), tex.id)
  }

  /** `glnvg__deleteTexture`: reports whether the id was registered and
      removes it. Dropping the registry's reference runs the texture's
      destructor, whose GL calls are returned. */
  function DeleteTexture(ctx: Context, id: int): (r: (Context, bool, seq<Cmd>))
    ensures r.1 <==> id in ctx.textures
    ensures id !in r.0.textures
    ensures r.0.textures.Keys == ctx.textures.Keys - {id}
    ensures forall k :: k in r.0.textures ==> r.0.textures[k] == ctx.textures[k]
    ensures r.1 ==> r.2 == Destroy(ctx.textures[id])
    ensures !r.1 ==> r.0 == ctx && r.2 == []
    ensures r.0 == ctx.(textures := r.0.textures)
    ensures RegistryInv(ctx) ==> RegistryInv(r.0)
  {
    if id in ctx.textures then
      (ctx.(textures := ctx.textures - {id}), true, Destroy(ctx.textures[id]))
    else (ctx, false, [])
  }

  /** `glnvg__renderUpdateTexture`: uploads into a registered texture, or
      reports failure without touching GL. */
  function UpdateTexture(ctx: Context, id: int, x: int, y: int, w: int, h: int): (r: (bool, seq<Cmd>))
    ensures r.0 <==> id in ctx.textures
    ensures r.0 ==> r.1 == Update(ctx.textures[id], x, y, w, h)
    ensures !r.0 ==> r.1 == []
  {
    match FindTexture(ctx, id)
    case None => (false, [])
    case Some(tex) => (true, Update(tex, x, y, w, h))
  }

  /** `glnvg__renderGetTextureSize`. */
  function GetTextureSize(ctx: Context, id: int): (r: Option<(int, int)>)
    ensures r.Some? <==> id in ctx.textures
    ensures r.Some? ==> r.value == (ctx.textures[id].width, ctx.textures[id].height)
  {
    match FindTexture(ctx, id)
    case None => None
    case Some(tex) => Some((tex.width, tex.height))
  }

  /** `nvglImageHandleGL3`: the GL name of a registered image. The code
      dereferences the lookup unchecked, so the id must be registered. */
  function ImageHandle(ctx: Context, id: int): (h: int)
    requires id in ctx.textures
    ensures h == ctx.textures[id].handle
  {
    FindTexture(ctx, id).value.handle
  }

  /** Registry round trips: a created image is found with the size it was
      created with, and after deletion it is gone while every other image
      is still there. */
  lemma RegistryRoundTrip(ctx: Context, handle: int, pixelType: PixelType, w: int, h: int, flags: ImageFlags, other: int)
    requires RegistryInv(ctx)
    ensures var (c1, id, _) := CreateTexture(ctx, handle, pixelType, w, h, flags);
      && GetTextureSize(c1, id) == Some((w, h))
      && ImageHandle(c1, id) == handle
      && DeleteTexture(c1, id).1
      && FindTexture(DeleteTexture(c1, id).0, id).None?
      && (other != id ==> FindTexture(DeleteTexture(c1, id).0, other) == FindTexture(ctx, other))
  {
  }

  /** `glnvg__renderViewport`: records the view size; the pixel ratio is
      unused. */
  function Viewport(ctx: Context, width: real, height: real, devicePixelRatio: real): (c: Context)
    ensures c.viewW == width && c.viewH == height
    ensures c.(viewW := ctx.viewW, viewH := ctx.viewH) == ctx
  {
    ctx.(viewW := width, viewH := height)
  }

  /** `initialize` after a successful shader build: the vertex array, the two
      buffers, the uniform stride from the reported offset alignment, and
      the 1x1 alpha dummy texture bound when a call has no image. */
  function Initialize(ctx: Context, shaderOk: bool, align: int, vao: int, vbo: int, ubo: int, dummyHandle: int)
    : (r: (Context, bool, seq<Cmd>))
    requires align > 0
    ensures r.1 <==> shaderOk
    ensures !r.1 ==> r.0 == ctx && r.2 == []
    ensures r.1 ==>
      && r.0.fragSize == FragSize(FragUniformsSize, align)
      && r.0.fragSize % align == 0 && FragUniformsSize < r.0.fragSize <= FragUniformsSize + align
      && r.0.vertArr == vao && r.0.vertBuf == vbo && r.0.fragBuf == ubo
      && r.0.calls == ctx.calls && r.0.verts == ctx.verts && r.0.uniforms == ctx.uniforms
      && r.0.dummyTex == ctx.lastId + 1 && r.0.dummyTex in r.0.textures
      && |r.2| > 0 && r.2[|r.2| - 1] == Gl(Finish)
      && r.0 == ctx.(textures := r.0.textures, lastId := r.0.lastId, vertArr := vao, vertBuf := vbo,
                     fragBuf := ubo, fragSize := r.0.fragSize, dummyTex := r.0.dummyTex)
    ensures r.1 && RegistryInv(ctx) ==>
      && RegistryInv(r.0)
      && r.0.textures[r.0.dummyTex] == Texture(r.0.dummyTex, dummyHandle, 1, 1, TextureAlpha, NoImageFlags)
  {
    if !shaderOk then (ctx, false, [])
    else
      var (c1, id, load) := CreateTexture(ctx, dummyHandle, TextureAlpha, 1, 1, NoImageFlags);
      var c2 := c1.(vertArr := vao, vertBuf := vbo, fragBuf := ubo,
                    fragSize := FragSize(FragUniformsSize, align), dummyTex := id);
      (c2, true, [Gl(GenVertexArray(vao)), Gl(GenBuffer(vbo)), Gl(GenBuffer(ubo))] + load + [Gl(Finish)])
  }
}
