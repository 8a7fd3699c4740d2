# nanovg GL3 backend: batching, compositing and textures

This project models the core of nanovg's OpenGL 3 backend
(`src/nanovg_gl.cpp`, `src/nanovg_gl_texture.cpp`) in Dafny and proves
properties of that model.

During a frame, the front end submits fills, strokes and triangle lists. The
backend stages each one as a *call* record. The geometry of a call goes into
four per-frame arenas:

- path records;
- vertices;
- uniform blocks, one per shader configuration;
- the calls themselves.

At flush time, `render` uploads the arenas to GL. It then replays every call
through a dispatcher that keeps a cache of the GL state, so that redundant
state changes are not issued. Finally it clears the frame.

Textures live in a registry keyed by integer ids. Each texture object owns its
GL name unless it was created with NODELETE.

## How the model is built

- **GL as a trace.** Every GL call the backend makes becomes a `Cmd` in a
  returned sequence. `GlModel.Run` replays a trace over a small abstract GL
  state, covering:
  - culling and colour-write enables;
  - the stencil mask, function and operations;
  - the blend;
  - the bound texture and uniform range;
  - the pixel-unpack parameters.

  `GlModel.Effects` lists the commands that actually produce something
  (draws, buffer uploads, texture uploads and texture parameters), each
  paired with the state it ran under. Properties about GL are stated on this
  replay: which state each draw runs under, and what state is left behind.
- **The context is an immutable value** (`GlContext.Context`). Each arena is
  a sequence whose length is the used count. The vertex and uniform arenas
  also carry an `Arenas.Arena` with their capacity and growth policy.
- **Things outside the model become parameters:**
  - whether a `realloc` succeeds;
  - the GL names that `glGen*` returns;
  - the uniform offset alignment;
  - floating-point helpers from the front end (inverse, multiply, sqrt),
    passed as `NvgTypes.FloatOps`.
- **The texture id counter** is a process-wide static in the source. Here it
  is the context field `lastId`, threaded through texture construction.

### Behaviour kept as written

- `glnvg__allocCall` appends a zeroed call before any allocation is tried. A
  failed vertex or uniform allocation therefore leaves that call in the list,
  half-initialised, and `render` later replays it. One might expect a failed
  allocation to drop the call, but the code keeps it, and so does the model.
  Staging returns a `Staging.Status` saying which allocation failed, if any.
  The contracts state when each failure happens and which fields the
  remaining call holds.
  - The call's path range is always valid, because `glnvg__allocPaths` cannot
    fail.
  - Its blend is always a valid one.
  - A fill or stroke whose vertices failed keeps zeroed path records and
    uniform offset 0. A FILL call keeps triangle offset 0 with triangle count
    4, so `render` later draws its cover quad from vertex 0.
  - Triangles whose vertices failed keep triangle offset -1, triangle count 0
    and uniform offset 0.
  - A call whose uniforms failed gets uniform offset -1, and the uniform arena
    is unchanged.
- `glnvg__renderStroke` reserves room for every path's fill and stroke
  vertices, but copies only the stroke vertices.
- `_fragSize` adds a whole alignment unit even when the uniform block size is
  already a multiple of the alignment. The result is the least multiple
  strictly greater than the size, never equal to it.
- `nvglImageHandleGL3` dereferences the registry lookup without a check, so
  `GlContext.ImageHandle` requires the id to be registered.

## Model

| member | source | states |
|---|---|---|
| Arenas.Alloc | src/nanovg_gl.cpp:212-227 | Allocation fails (returns -1 and changes nothing) exactly when the request does not fit and realloc fails. Otherwise it returns the old count and the count grows by n. It grows only when the request does not fit, to max(count+n, floor) + capacity/2. The capacity never shrinks, and count ≤ capacity is kept. |
| Arenas.AllocVerts | src/nanovg_gl.cpp:212-227 | Returns -1, changing nothing, iff the vertices do not fit and realloc fails. Otherwise it returns the old count and the count grows by n. The capacity grows only when needed, to max(count+n, 4096) + capacity/2. |
| Arenas.AllocFragUniforms | src/nanovg_gl.cpp:229-244 | The uniform arena follows the shared policy with a floor of 128. On success it returns the byte offset of the first new block: the old count times the stride. |
| Arenas.GrowthIsGeometric | src/nanovg_gl.cpp:215-218 | A growth step leaves room for the request and the floor, and multiplies the capacity by at least 1.5. |
| Arenas.ReallocationsLogarithmic | src/nanovg_gl.cpp:212-227 | Over any sequence of allocations, the final count is the sum of the requests. The capacity stays within twice max(count, floor). After k reallocations the capacity is at least the k-step geometric lower bound, so k is logarithmic in the total size. |
| Arenas.StepKeepsBounds | src/nanovg_gl.cpp:212-227 | One allocation keeps the capacity within twice max(count, floor). A growth step climbs one lower bound. |
| Arenas.MinCapacityGeometric | src/nanovg_gl.cpp:215-218 | The lower bound on the capacity grows by a factor of at least 1.5 per reallocation, and is at least the floor after the first one. |
| Arenas.FragSize | src/nanovg_gl.cpp:169-171 | The uniform stride is a multiple of the alignment and strictly greater than the block size, by at most one alignment unit. It is the least such multiple. |
| GlContext.NewContext | src/nanovg_gl.cpp:887-909 | The new context has empty arenas and an empty registry. It satisfies the arena and registry invariants. |
| GlContext.Clear | src/nanovg_gl.cpp:131-136 | The path, vertex, call and uniform counts drop to zero. The capacities, registry, cache and GL objects are kept. The invariants are preserved. |
| GlContext.RenderCancel | src/nanovg_gl.cpp:634-637 | Cancelling is exactly clearing. |
| GlContext.ClearIdempotent | src/nanovg_gl.cpp:131-136 | Clearing twice is clearing once. After a clear, the next vertex and uniform allocations start at offset 0. |
| GlContext.AllocCall | src/nanovg_gl.cpp:198-204 | Appends one all-zero call and returns its index. It cannot fail, and the other arenas are untouched. |
| GlContext.AllocPaths | src/nanovg_gl.cpp:206-210 | Appends n zeroed path records after the old ones and returns the old count. It never returns -1. |
| GlContext.FindTexture | src/nanovg_gl.cpp:190-196 | Finds a texture iff the id is registered, and returns the registered object. |
| GlContext.Insert | src/nanovg_gl.cpp:527 | A map insert adds the texture only under an absent key. Existing entries never change. |
| GlContext.CreateTexture | src/nanovg_gl.cpp:519-529 | Returns the next id, which was not registered before. Afterwards the registry maps that id to a texture with the given handle, size, type and flags, and the GL trace is the texture load. Every context field other than the registry and the id counter is unchanged. |
| GlContext.CreateImageFromHandle | src/nanovg_gl.cpp:927-935 | Returns the next id, which was not registered before. The new entry wraps the given GL name as RGBA, and no GL call is made. Every context field other than the registry and the id counter is unchanged. |
| GlContext.DeleteTexture | src/nanovg_gl.cpp:252-259 | Returns true iff the id was registered. Afterwards the id is absent and every other entry is unchanged. The trace is the texture destructor's, or empty when nothing was removed. Every context field other than the registry is unchanged. |
| GlContext.UpdateTexture | src/nanovg_gl.cpp:536-545 | Succeeds iff the id is registered. On success it issues that texture's update; on failure it makes no GL call. |
| GlContext.GetTextureSize | src/nanovg_gl.cpp:547-555 | Returns a size iff the id is registered, and it is the registered width and height. |
| GlContext.ImageHandle | src/nanovg_gl.cpp:937-941 | The GL name of a registered image. |
| GlContext.RegistryRoundTrip | src/nanovg_gl.cpp:519-555 | A created image reports its size and handle. Deleting it succeeds and leaves it unfindable, while every other id finds what it found before. |
| GlContext.Viewport | src/nanovg_gl.cpp:626-632 | Records the view size and changes nothing else. |
| GlContext.Initialize | src/nanovg_gl.cpp:149-187 | Succeeds iff the shader was built; on failure nothing changes. On success, the stride is FragSize(176, align): the least multiple of the alignment strictly above the 176-byte block. The vertex array and the two buffers are the given GL names. A 1×1 alpha dummy texture is registered under the next id. Every other field is unchanged, including the arenas, their capacities and the state cache. The trace ends with glFinish. |
| Textures.NewId | src/nanovg_gl_texture.cpp:6-9 | A new id is positive and one more than the counter. |
| Textures.IdsIncreasing | src/nanovg_gl_texture.cpp:6-9 | Successive textures get ids that are above the old counter and strictly increasing, so no id repeats. |
| Textures.MinFilterFor | src/nanovg_gl_texture.cpp:42-56 | The min filter is a mipmap filter iff GENERATE_MIPMAPS is set, and a nearest filter iff NEAREST is set. All four iffs are stated. |
| Textures.MagFilterFor | src/nanovg_gl_texture.cpp:58-62 | The mag filter is NEAREST iff NEAREST is set, and otherwise LINEAR. |
| Textures.WrapSFor | src/nanovg_gl_texture.cpp:64-67 | Wrap S is REPEAT iff REPEATX is set, and otherwise CLAMP_TO_EDGE. |
| Textures.WrapTFor | src/nanovg_gl_texture.cpp:69-72 | Wrap T is REPEAT iff REPEATY is set, and otherwise CLAMP_TO_EDGE. |
| Textures.ParametersIndependent | src/nanovg_gl_texture.cpp:58-72 | The mag filter and each wrap mode depend on their one flag only. |
| Textures.FormatFor | src/nanovg_gl_texture.cpp:35-40 | Uploads are RGBA iff the texture type is RGBA, and single-channel otherwise. |
| Textures.SetUnpackAllRuns | src/nanovg_gl_texture.cpp:30-33 | The four pixel-store calls set exactly the unpack state. |
| Textures.Load | src/nanovg_gl_texture.cpp:20-87 | The object gets the next id and stores the handle, size, type and flags. The trace starts by generating the texture name and ends unbound. |
| Textures.LoadProtocol | src/nanovg_gl_texture.cpp:20-87 | From any GL state, a load has these effects, in order, all on this texture: one image upload under unpack (1, width, 0, 0); the min, mag, wrap-S and wrap-T parameters from the flag tables; and the mipmap generation iff requested. Afterwards the unpack state is the GL default and no texture is bound. |
| Textures.FromHandle | src/nanovg_gl_texture.cpp:89-98 | The wrapper gets the next id and stores the handle, size and flags. Its type is RGBA. |
| Textures.Update | src/nanovg_gl_texture.cpp:100-121 | The trace binds the texture first and unbinds it last. |
| Textures.UpdateProtocol | src/nanovg_gl_texture.cpp:100-121 | From any GL state, an update has exactly one effect: a sub-image upload into this texture, under unpack (1, width, x, y). Afterwards the unpack state is the GL default and no texture is bound. |
| Textures.Destroy | src/nanovg_gl_texture.cpp:11-15 | The destructor deletes the GL name iff it is non-zero and NODELETE is clear, and deletes nothing else. |
| Textures.DestroyOwnership | src/nanovg_gl_texture.cpp:11-15 | A NODELETE wrapper is never deleted. A loaded texture with a real name is deleted by that name. |
| BlendModes.ConvertFactor | src/nanovg_gl.cpp:639-663 | A factor translates to something other than GL_INVALID_ENUM iff it is one of the eleven known codes. A translated factor maps back to its code. |
| BlendModes.ConvertCodeOf | src/nanovg_gl.cpp:639-663 | Translating the code of any GL factor gives that factor back. |
| BlendModes.BlendCompositeOperation | src/nanovg_gl.cpp:665-680 | The result is always a valid blend. When all four codes are known, each factor maps back to its code. Otherwise the result is (ONE, ONE_MINUS_SRC_ALPHA, ONE, ONE_MINUS_SRC_ALPHA). |
| NvgTypes.Premul | src/nanovg_gl.cpp:31-36 | Premultiplication keeps alpha. An opaque colour is unchanged, and a fully transparent colour becomes black. |
| NvgTypes.PremulBelowAlpha | src/nanovg_gl.cpp:31-36 | For unit-range colours, premultiplication leaves every channel between 0 and alpha. |
| PaintConversion.XformToMat3x4 | src/nanovg_gl.cpp:16-29 | The 12-float matrix holds the six affine coefficients in the column slots, which read back as the transform. The padding is 0, 0, 0, 0, 1, 0. |
| PaintConversion.XformToMat3x4Injective | src/nanovg_gl.cpp:16-29 | Two transforms give the same matrix iff they are equal. |
| PaintConversion.TexKind | src/nanovg_gl.cpp:609-612 | The texture kind is 0 iff premultiplied RGBA, 1 iff straight RGBA, and 2 iff not RGBA. |
| PaintConversion.ConvertPaint | src/nanovg_gl.cpp:557-624 | Succeeds iff the paint has no image or a registered one. The colours are premultiplied. With the no-scissor sentinel, the matrix is zero and the extents and scales are 1; otherwise they come from the inverse transform, the extents and the lengths of the rows of the scissor's linear part. The extent, stroke multiplier and threshold are stored. A gradient paint gets radius, feather and the inverse paint matrix. A registered image gets the image shader, its texture kind and the inverse of the (possibly flipped) paint transform. An unknown image stops with a gradient type and zero matrix. |
| PaintConversion.NoScissorIgnoresTransform | src/nanovg_gl.cpp:568-573 | With the no-scissor sentinel, nothing else about the scissor affects the block. |
| PaintConversion.ConvertedColorsPremultiplied | src/nanovg_gl.cpp:565-566 | The converted inner and outer colours have no channel above alpha. |
| Staging.MaxVertCount | src/nanovg_gl.cpp:687-694 | The loop returns the total of the fill and stroke vertex counts over the paths. |
| Staging.StrokeCount | src/nanovg_gl.cpp:806-823 | The stroke vertices never exceed the vertices reserved for the paths. |
| Staging.RenderFill | src/nanovg_gl.cpp:703-784 | Appends one call carrying the paint's image and the translated blend. The call is CONVEXFILL with triangleCount 0 exactly for one convex path, and otherwise FILL with 4. It gets one new path record per path. Vertex allocation fails iff Σ path vertices + triangleCount does not fit and realloc fails, and then the paths stay zeroed and the offsets stay 0. Otherwise exactly that many vertices are appended after the existing ones, which are kept, and the vertex arena is the one `Arenas.AllocVerts` returns. The uniform allocation fails iff the vertices succeeded and 1 (convex) or 2 blocks do not fit and realloc fails; then the offset is -1 and the uniform arena is unchanged. When staging completes, the uniform offset is the old block count times the stride, with 1 or 2 new blocks after the kept old ones, and the uniform arena is the one `Arenas.AllocFragUniforms` returns. |
| Staging.RenderFillPlaces | src/nanovg_gl.cpp:729-762 | Each path record points at that path's fill and stroke vertices. Path i's fill starts at the old vertex count plus the vertices of paths 0..i-1, and its fringe starts right after its fill. A non-convex fill's quad follows the last path vertex and holds the bounds. |
| Staging.RenderFillDisjoint | src/nanovg_gl.cpp:734-762 | The vertex ranges of a fill's path records are pairwise disjoint and in record order. Within a path the fill precedes the fringe, and every range ends before the cover quad. |
| Staging.RenderFillUniforms | src/nanovg_gl.cpp:754-783 | A convex fill writes one paint block. Any other fill writes a zeroed SIMPLE block with threshold -1, then the paint block (width = fringe, threshold -1). |
| Staging.RenderStroke | src/nanovg_gl.cpp:786-845 | Appends a STROKE call and one path record per path. It reserves Σ (fill + stroke) vertices, and fails iff those do not fit and realloc fails. Otherwise the existing vertices are kept and the vertex arena is the one `Arenas.AllocVerts` returns. The uniform allocation fails iff the vertices succeeded and 2 blocks (stencil strokes) or 1 block do not fit and realloc fails; then the offset is -1 and the uniform arena is unchanged. Otherwise it appends two uniform blocks with stencil strokes, and one without, after the kept old ones, and the uniform arena is the one `Arenas.AllocFragUniforms` returns. |
| Staging.RenderStrokePlaces | src/nanovg_gl.cpp:806-823 | Each stroke record points at that path's stroke vertices, which are consecutive from the old vertex count, and has no fill range. |
| Staging.RenderStrokeUniforms | src/nanovg_gl.cpp:825-844 | With stencil strokes, the blocks are the paint block without threshold, then the paint block with threshold 1 - 0.5/255. Without stencil strokes, there is one block without threshold. |
| Staging.RenderTriangles | src/nanovg_gl.cpp:847-877 | Appends a TRIANGLES call and copies the vertices verbatim at the old vertex count, keeping the old ones; the vertex arena is the one `Arenas.AllocVerts` returns. A failed vertex allocation leaves triangle offset -1 and uniform offset 0. The uniform allocation fails iff the vertices succeeded and one block does not fit and realloc fails; then the offset is -1 and the uniform arena is unchanged. Otherwise the one uniform block is the paint with the image shader type, appended after the kept old ones, and the uniform arena is the one `Arenas.AllocFragUniforms` returns. |
| Staging.EarlierCallsStay | src/nanovg_gl.cpp:703-877 | When a frame grows (path records, vertices and uniform blocks all kept as a prefix, same stride and flags), every earlier call that was in bounds still is. The three in-bounds lemmas show each staging operation grows the frame this way. |
| Staging.RenderFillInBounds | src/nanovg_gl.cpp:703-784 | A completed fill names only path, vertex and uniform ranges inside the arenas, at a stride-aligned offset. The old path records, vertices and uniform blocks are kept as a prefix, so every earlier in-bounds call stays in bounds. |
| Staging.RenderStrokeInBounds | src/nanovg_gl.cpp:786-845 | A completed stroke names only ranges inside the arenas. The old path records, vertices and uniform blocks are kept as a prefix, so every earlier in-bounds call stays in bounds. |
| Staging.RenderTrianglesInBounds | src/nanovg_gl.cpp:847-877 | Completed triangles name only ranges inside the arenas. The old path records, vertices and uniform blocks are kept as a prefix, so every earlier in-bounds call stays in bounds. |
| Staging.RenderFillDispatchable | src/nanovg_gl.cpp:703-784 | After a fill, even a half-staged one, every call still has a valid blend and a path range inside the path arena. |
| Staging.RenderStrokeDispatchable | src/nanovg_gl.cpp:786-845 | After a stroke, even a half-staged one, every call is still dispatchable. |
| Staging.RenderTrianglesDispatchable | src/nanovg_gl.cpp:847-877 | After a triangles call, even a half-staged one, every call is still dispatchable. |
| Dispatcher.SetTexture | src/nanovg_gl.cpp:485-490 | Binds (one command) iff the cached texture differs. The cache then holds the request. |
| Dispatcher.SetStencilMask | src/nanovg_gl.cpp:492-497 | Emits iff the cached mask differs. The cache then holds the request. |
| Dispatcher.SetStencilFunc | src/nanovg_gl.cpp:499-508 | Emits iff the function, reference or mask differs from the cache. The cache then holds the request. |
| Dispatcher.SetBlend | src/nanovg_gl.cpp:337-346 | Emits iff any of the four cached factors differs. The cache then holds the request. |
| Dispatcher.SetTextureRuns | src/nanovg_gl.cpp:485-490 | Against a coherent cache, GL ends with the requested texture, nothing else changes, and the cache stays coherent. Eliding the call loses no state change. |
| Dispatcher.SetBlendRuns | src/nanovg_gl.cpp:337-346 | Against a coherent cache, GL ends with the requested blend, and the cache stays coherent. |
| Dispatcher.TextureFor | src/nanovg_gl.cpp:474-482 | A draw uses the image's texture when the image is registered. Otherwise it uses the dummy texture when that is registered, and otherwise texture 0. |
| Dispatcher.SetUniformsRuns | src/nanovg_gl.cpp:469-483 | Selects the call's uniform block and texture, with no effect. |
| Dispatcher.FillProtocol | src/nanovg_gl.cpp:348-390 | The fill's effects run in this order. First, the fans of every path with the simple block, under colour writes off, stencil mask 0xff, ALWAYS 0/0xff, INCR_WRAP front / DECR_WRAP back and culling off. Then, with antialiasing, the fringe strips with the paint block and image texture, under colour on, EQUAL 0 and KEEP. Last, one cover quad, under NOTEQUAL 0 and ZERO ops with the paint block. The blend never changes. Afterwards the stencil test is off, colour writes and culling are on, and the cache is coherent. |
| Dispatcher.ConvexFillProtocol | src/nanovg_gl.cpp:392-407 | One fan per path, followed by its fringe strip when it has one, all under the call's uniforms and texture. |
| Dispatcher.TrianglesProtocol | src/nanovg_gl.cpp:462-467 | A single draw of the call's triangles under its uniforms and texture. |
| Dispatcher.StencilStrokeProtocol | src/nanovg_gl.cpp:413-445 | Three passes over the strokes, in this order. First, a stencil increment under EQUAL 0 with the second (threshold) block. Then the strips again under EQUAL 0 and KEEP with the first block. Last, a stencil clear under ALWAYS and ZERO ops with colour off. All three use the image texture, and the blend and culling are unchanged. Afterwards colour is on and the stencil test is off. |
| Dispatcher.PlainStrokeProtocol | src/nanovg_gl.cpp:452-459 | Without stencil strokes, one strip per path under the call's uniforms and texture. |
| Dispatcher.CallRuns | src/nanovg_gl.cpp:311-321 | Each call sets its blend first. Its draws all run under that blend, and the cache stays coherent. |
| Dispatcher.CallsRun | src/nanovg_gl.cpp:311-321 | The call loop issues nothing but draws, each under the blend of some call of the frame, and ends between calls with the cache describing GL. |
| Dispatcher.CallsInOrder | src/nanovg_gl.cpp:311-321 | The loop's trace is, for every j, the trace of the calls before j, then call j's own trace from the cache they leave, then the rest. Call j starts between calls: colour writes and culling on, and the cache coherent. |
| Dispatcher.SetupRuns | src/nanovg_gl.cpp:264-287 | The frame setup puts GL in one known state, whatever the state before, and the reset cache describes it. |
| Dispatcher.UploadsRun | src/nanovg_gl.cpp:289-309 | The uploads change no tracked state. Their effects are the uniform upload (block count × stride), then the vertex upload (vertex count × 16). |
| Dispatcher.TeardownRuns | src/nanovg_gl.cpp:323-329 | After teardown, culling is off and no texture is bound. |
| Dispatcher.Render | src/nanovg_gl.cpp:261-334 | Render always ends in clear. With no calls it issues no GL command. |
| Dispatcher.RenderFlush | src/nanovg_gl.cpp:682-685 | Flushing is rendering. |
| Dispatcher.RenderProtocol | src/nanovg_gl.cpp:261-334 | A frame's effects are the two uploads from the setup state, then the calls' traces. Every effect after the uploads is a draw under the blend of some call of the frame. Afterwards culling is off, no texture is bound, colour writes are on, and the cache describes GL. |

## Left out

- Shader creation and compilation: `initialize` is modelled from the shader's success or failure onward, and the program's GL name is not tracked.
- `set_texture_and_view` on the shader: it appears as one inert command carrying the view size, because the shader object is not part of this model.
- `glnvg__checkError`: it is debug output only.
- `nvgCreateGL3`'s wiring of function pointers, `glnvg__renderDelete`, the context destructor and `nvgDeleteGL3`: these are lifetime plumbing with no logic of their own beyond what `NewContext`, `Initialize` and `Destroy` model.
- Floating-point arithmetic: matrix inverse, multiply, translate, scale, sqrt and division are the parameters in `NvgTypes.FloatOps`. Values in `real` stand for the source's `float`, so rounding is not modelled.
- Vertex contents beyond placement: copies are modelled as sequence concatenation. Reserved vertices that the code never writes (the fill part of a stroke's reservation) are modelled as zeros, whereas the source leaves whatever `realloc` returned.
- Pixel data and the bytes of uploads: only the sizes and parameters of uploads are modelled.
- `shared_ptr` reference counting: a texture's destructor runs when the registry drops it, which holds because nothing else keeps a reference.
- The process-wide texture id counter: it is threaded through the context as `lastId`, so ids are increasing per context chain and not across contexts.
- Integer width: the texture id counter (`static int`), `_fragSize` and the arena counts and capacities (`int`) are unbounded integers here. Overflow of `_nverts + n`, `_nuniforms * _fragSize` or the capacity arithmetic is not modelled, and neither is id exhaustion. In particular, `Textures.IdsIncreasing` (no id repeats) relies on ids never wrapping.
- `realloc` success is a parameter of each allocation: memory exhaustion is not modelled.
- The numeric values of the `NVG_IMAGE_*` and `NVG_ANTIALIAS`/`NVG_STENCIL_STROKES` flags: nanovg.h is not part of this model, so the flags are booleans. The blend factor codes use the front end's bit values.
- Dispatcher.Render: requires every call to be dispatchable (valid blend, path range inside the arena). The Staging `*Dispatchable` lemmas prove that staging always keeps this.
- GlContext.Initialize: requires a positive alignment. The source would divide by a zero alignment, which GL never reports.
- The GL state beyond what the dispatcher, the texture code and the uploads touch, such as depth, scissor test and attribute formats, is not tracked.
- The example programs under `example/` are not part of this model.
