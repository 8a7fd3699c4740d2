/** Call staging (`glnvg__renderFill`, `glnvg__renderStroke`,
    `glnvg__renderTriangles`): each submission becomes one call record whose
    path, vertex and uniform ranges point into the frame arenas.

    The call is appended before any allocation is attempted, so a failed
    allocation leaves it in the list half-initialised; the returned `Status`
    says how far staging got. Whether each `realloc` succeeds is a parameter.
 */
module Staging {
  import opened GlModel
  import opened NvgTypes
  import opened Arenas
  import opened PaintConversion
  import opened BlendModes
  import opened GlContext

  datatype Status = Staged | VertsFailed | UniformsFailed

  /** The fill bounds `[minx, miny, maxx, maxy]` the front end passes. */
  datatype Bounds = Bounds(minX: real, minY: real, maxX: real, maxY: real)

  /** The alpha threshold of the second stencil-stroke block: just under 1. */
  const StrokeThreshold: real := 1.0 - 0.5 / 255.0

  /** Sum of fill and stroke vertex counts over the paths. */
  function VertCount(paths: seq<NvgPath>): nat
    decreases |paths|
  {
    if |paths| == 0 then 0 else |paths[0].fill| + |paths[0].stroke| + VertCount(paths[1..])
  }

  /** Sum of stroke vertex counts over the paths. */
  function StrokeCount(paths: seq<NvgPath>): (n: nat)
    ensures n <= VertCount(paths)
    decreases |paths|
  {
    if |paths| == 0 then 0 else |paths[0].stroke| + StrokeCount(paths[1..])
  }

  /** `glnvg__maxVertCount`: the loop the code runs. */
  method MaxVertCount(paths: seq<NvgPath>) returns (count: nat)
    ensures count == VertCount(paths)
  {
    count := 0;
    var i := 0;
    while i < |paths|
      invariant 0 <= i <= |paths|
      invariant count + VertCount(paths[i..]) == VertCount(paths)
    {
      assert paths[i..][1..] == paths[i + 1..];
      count := count + |paths[i].fill|;
      count := count + |paths[i].stroke|;
      i := i + 1;
    }
    assert paths[i..] == [];
  }

  /** The vertices a fill copies: each path's fill, then its stroke, in order. */
  function FillVerts(paths: seq<NvgPath>): (v: seq<Vertex>)
    ensures |v| == VertCount(paths)
    decreases |paths|
  {
    if |paths| == 0 then [] else paths[0].fill + paths[0].stroke + FillVerts(paths[1..])
  }

  /** The vertices a stroke copies: each path's stroke, in order. */
  function StrokeVerts(paths: seq<NvgPath>): (v: seq<Vertex>)
    ensures |v| == StrokeCount(paths)
    decreases |paths|
  {
    if |paths| == 0 then [] else paths[0].stroke + StrokeVerts(paths[1..])
  }

  /** Reserved vertices the code never writes. Their contents are whatever
      `realloc` left; the model fills them with zeros. */
  function Blanks(n: nat): (v: seq<Vertex>)
    ensures |v| == n
  {
    seq(n, _ => Vertex(0.0, 0.0, 0.0, 0.0))
  }

  /** The bounding quad a non-convex fill covers, as a four-vertex strip. */
  function Quad(b: Bounds): (q: seq<Vertex>)
    ensures |q| == 4
  {
    [Vertex(b.maxX, b.maxY, 0.5, 1.0), Vertex(b.maxX, b.minY, 0.5, 1.0),
     Vertex(b.minX, b.maxY, 0.5, 1.0), Vertex(b.minX, b.minY, 0.5, 1.0)]
  }

  /** The record a fill writes for one path whose vertices start at `offset`:
      a part with no vertices keeps offset and count zero. */
  function FillCopy(p: NvgPath, offset: int): GlPath {
    GlPath(if |p.fill| > 0 then offset else 0, |p.fill|,
           if |p.stroke| > 0 then offset + |p.fill| else 0, |p.stroke|)
  }

  function StrokeCopy(p: NvgPath, offset: int): GlPath {
    GlPath(0, 0, if |p.stroke| > 0 then offset else 0, |p.stroke|)
  }

  function FillLayout(paths: seq<NvgPath>, offset: int): (l: seq<GlPath>)
    ensures |l| == |paths|
    decreases |paths|
  {
    if |paths| == 0 then []
    else [FillCopy(paths[0], offset)] + FillLayout(paths[1..], offset + |paths[0].fill| + |paths[0].stroke|)
  }

  function StrokeLayout(paths: seq<NvgPath>, offset: int): (l: seq<GlPath>)
    ensures |l| == |paths|
    decreases |paths|
  {
    if |paths| == 0 then []
    else [StrokeCopy(paths[0], offset)] + StrokeLayout(paths[1..], offset + |paths[0].stroke|)
  }

  /** `part` sits in `verts` starting at `offset`. */
  predicate Holds(verts: seq<Vertex>, offset: int, part: seq<Vertex>) {
    0 <= offset && offset + |part| <= |verts| && verts[offset..offset + |part|] == part
  }

  /** A staged path record describes where `p`'s stroke sits in `verts`. */
  predicate StrokePlaced(verts: seq<Vertex>, gp: GlPath, p: NvgPath) {
    && gp.strokeCount == |p.stroke|
    && (if |p.stroke| > 0 then Holds(verts, gp.strokeOffset, p.stroke) else gp.strokeOffset == 0)
  }

  /** ... and, for a fill, where its fill fan sits too. */
  predicate FillPlaced(verts: seq<Vertex>, gp: GlPath, p: NvgPath) {
    && gp.fillCount == |p.fill|
    && (if |p.fill| > 0 then Holds(verts, gp.fillOffset, p.fill) else gp.fillOffset == 0)
    && StrokePlaced(verts, gp, p)
  }

  lemma SliceMiddle(a: seq<Vertex>, b: seq<Vertex>, c: seq<Vertex>)
    ensures (a + b + c)[|a|..|a| + |b|] == b
  {
    assert forall k :: 0 <= k < |b| ==> (a + b + c)[|a| + k] == b[k];
  }

  /** Fill layout: path i's fill starts at the base plus the vertex count of
      the paths before it and its stroke follows its fill, so the ranges are
      consecutive and disjoint in path order; and each range holds exactly
      the path's vertices. */
  lemma {:induction false} FillPathPlaced(prefix: seq<Vertex>, paths: seq<NvgPath>, suffix: seq<Vertex>, i: int)
    requires 0 <= i < |paths|
    ensures var gp := FillLayout(paths, |prefix|)[i];
      var at := |prefix| + VertCount(paths[..i]);
      && FillPlaced(prefix + FillVerts(paths) + suffix, gp, paths[i])
      && (|paths[i].fill| > 0 ==> gp.fillOffset == at)
      && (|paths[i].stroke| > 0 ==> gp.strokeOffset == at + |paths[i].fill|)
    decreases i
  {
    if i == 0 {
      FillHeadPlaced(prefix, paths, suffix);
    } else {
      var p := paths[0];
      var prefix' := prefix + p.fill + p.stroke;
      FillPathPlaced(prefix', paths[1..], suffix, i - 1);
      FillShift(prefix, paths, suffix, i);
    }
  }

  lemma FillHeadPlaced(prefix: seq<Vertex>, paths: seq<NvgPath>, suffix: seq<Vertex>)
    requires |paths| > 0
    ensures var gp := FillLayout(paths, |prefix|)[0];
      && FillPlaced(prefix + FillVerts(paths) + suffix, gp, paths[0])
      && (|paths[0].fill| > 0 ==> gp.fillOffset == |prefix|)
      && (|paths[0].stroke| > 0 ==> gp.strokeOffset == |prefix| + |paths[0].fill|)
  {
    var p := paths[0];
    var tail := FillVerts(paths[1..]) + suffix;
    var verts := prefix + FillVerts(paths) + suffix;
    assert verts == prefix + p.fill + (p.stroke + tail);
    SliceMiddle(prefix, p.fill, p.stroke + tail);
    assert verts == prefix + p.fill + p.stroke + tail;
    SliceMiddle(prefix + p.fill, p.stroke, tail);
  }

  /** Dropping the first path shifts the base past its vertices. */
  lemma FillShift(prefix: seq<Vertex>, paths: seq<NvgPath>, suffix: seq<Vertex>, i: int)
    requires 0 < i < |paths|
    ensures var prefix' := prefix + paths[0].fill + paths[0].stroke;
      && prefix + FillVerts(paths) + suffix == prefix' + FillVerts(paths[1..]) + suffix
      && FillLayout(paths, |prefix|)[i] == FillLayout(paths[1..], |prefix'|)[i - 1]
      && VertCount(paths[..i]) == |paths[0].fill| + |paths[0].stroke| + VertCount(paths[1..][..i - 1])
      && paths[i] == paths[1..][i - 1]
  {
    assert paths[..i][1..] == paths[1..][..i - 1];
  }

  lemma FillLayoutPlaces(prefix: seq<Vertex>, paths: seq<NvgPath>, suffix: seq<Vertex>)
    ensures forall i :: 0 <= i < |paths| ==>
      var gp := FillLayout(paths, |prefix|)[i];
      var at := |prefix| + VertCount(paths[..i]);
      && FillPlaced(prefix + FillVerts(paths) + suffix, gp, paths[i])
      && (|paths[i].fill| > 0 ==> gp.fillOffset == at)
      && (|paths[i].stroke| > 0 ==> gp.strokeOffset == at + |paths[i].fill|)
  {
    forall i | 0 <= i < |paths|
      ensures var gp := FillLayout(paths, |prefix|)[i];
        var at := |prefix| + VertCount(paths[..i]);
        && FillPlaced(prefix + FillVerts(paths) + suffix, gp, paths[i])
        && (|paths[i].fill| > 0 ==> gp.fillOffset == at)
        && (|paths[i].stroke| > 0 ==> gp.strokeOffset == at + |paths[i].fill|)
    {
      FillPathPlaced(prefix, paths, suffix, i);
    }
  }

  /** Stroke layout: path i's stroke starts at the base plus the stroke
      counts of the paths before it, and holds exactly its stroke vertices. */
  lemma {:induction false} StrokePathPlaced(prefix: seq<Vertex>, paths: seq<NvgPath>, suffix: seq<Vertex>, i: int)
    requires 0 <= i < |paths|
    ensures var gp := StrokeLayout(paths, |prefix|)[i];
      && gp.fillOffset == 0 && gp.fillCount == 0
      && StrokePlaced(prefix + StrokeVerts(paths) + suffix, gp, paths[i])
      && (|paths[i].stroke| > 0 ==> gp.strokeOffset == |prefix| + StrokeCount(paths[..i]))
    decreases i
  {
    if i == 0 {
      var p := paths[0];
      var tail := StrokeVerts(paths[1..]) + suffix;
      assert paths[..0] == [];
      assert prefix + StrokeVerts(paths) + suffix == prefix + p.stroke + tail;
      SliceMiddle(prefix, p.stroke, tail);
    } else {
      var prefix' := prefix + paths[0].stroke;
      StrokePathPlaced(prefix', paths[1..], suffix, i - 1);
      StrokeShift(prefix, paths, suffix, i);
    }
  }

  lemma StrokeShift(prefix: seq<Vertex>, paths: seq<NvgPath>, suffix: seq<Vertex>, i: int)
    requires 0 < i < |paths|
    ensures var prefix' := prefix + paths[0].stroke;
      && prefix + StrokeVerts(paths) + suffix == prefix' + StrokeVerts(paths[1..]) + suffix
      && StrokeLayout(paths, |prefix|)[i] == StrokeLayout(paths[1..], |prefix'|)[i - 1]
      && StrokeCount(paths[..i]) == |paths[0].stroke| + StrokeCount(paths[1..][..i - 1])
      && paths[i] == paths[1..][i - 1]
  {
    assert paths[..i][1..] == paths[1..][..i - 1];
  }

  lemma StrokeLayoutPlaces(prefix: seq<Vertex>, paths: seq<NvgPath>, suffix: seq<Vertex>)
    ensures forall i :: 0 <= i < |paths| ==>
      var gp := StrokeLayout(paths, |prefix|)[i];
      && gp.fillOffset == 0 && gp.fillCount == 0
      && StrokePlaced(prefix + StrokeVerts(paths) + suffix, gp, paths[i])
      && (|paths[i].stroke| > 0 ==> gp.strokeOffset == |prefix| + StrokeCount(paths[..i]))
  {
    forall i | 0 <= i < |paths|
      ensures var gp := StrokeLayout(paths, |prefix|)[i];
        && gp.fillOffset == 0 && gp.fillCount == 0
        && StrokePlaced(prefix + StrokeVerts(paths) + suffix, gp, paths[i])
        && (|paths[i].stroke| > 0 ==> gp.strokeOffset == |prefix| + StrokeCount(paths[..i]))
    {
      StrokePathPlaced(prefix, paths, suffix, i);
    }
  }

  /** Exactly one path, flagged convex: the fast path. */
  predicate IsConvex(paths: seq<NvgPath>) {
    |paths| == 1 && paths[0].convex
  }

  /** The fields every staged call gets before its first allocation. */
  function CallHead(kind: CallType, paint: Paint, op: CompositeOp, pathOffset: int, pathCount: int): Call {
    EmptyCall.(kind := kind, image := paint.image, pathOffset := pathOffset, pathCount := pathCount,
               blend := BlendCompositeOperation(op))
  }

  /** The facts every staging operation gives about the call it appends. */
  predicate Appended(ctx: Context, c: Context, paint: Paint, op: CompositeOp) {
    && |c.calls| == |ctx.calls| + 1
    && c.calls[..|ctx.calls|] == ctx.calls
    && c.calls[|ctx.calls|].image == paint.image
    && c.calls[|ctx.calls|].blend == BlendCompositeOperation(op)
    && ValidBlend(c.calls[|ctx.calls|].blend)
    && c.textures == ctx.textures && c.cache == ctx.cache && c.flags == ctx.flags
    && c.fragSize == ctx.fragSize && c.lastId == ctx.lastId && c.dummyTex == ctx.dummyTex
    && ArenasAgree(c)
  }

  /** `glnvg__renderFill`. */
  function RenderFill(ctx: Context, paint: Paint, op: CompositeOp, scissor: Scissor, fringe: real,
                      bounds: Bounds, paths: seq<NvgPath>, vertsOk: bool, uniformsOk: bool, ops: FloatOps)
    : (r: (Context, Status))
    requires ArenasAgree(ctx)
    ensures Appended(ctx, r.0, paint, op)
    ensures var call := r.0.calls[|ctx.calls|];
      && call.kind == (if IsConvex(paths) then ConvexFill else Fill)
      && call.triangleCount == (if IsConvex(paths) then 0 else 4)
      && call.pathOffset == |ctx.paths| && call.pathCount == |paths|
    ensures |r.0.paths| == |ctx.paths| + |paths| && r.0.paths[..|ctx.paths|] == ctx.paths
    ensures r.1 == VertsFailed <==>
      |ctx.verts| + VertCount(paths) + r.0.calls[|ctx.calls|].triangleCount > ctx.vertArena.capacity && !vertsOk
    ensures r.1 == VertsFailed ==>
      && r.0.verts == ctx.verts && r.0.uniforms == ctx.uniforms
      && r.0.vertArena == ctx.vertArena && r.0.uniformArena == ctx.uniformArena
      && r.0.calls[|ctx.calls|].uniformOffset == 0 && r.0.calls[|ctx.calls|].triangleOffset == 0
      && forall k :: |ctx.paths| <= k < |r.0.paths| ==> r.0.paths[k] == ZeroPath
    ensures r.1 != VertsFailed ==>
      && |r.0.verts| == |ctx.verts| + VertCount(paths) + r.0.calls[|ctx.calls|].triangleCount
      && r.0.verts[..|ctx.verts|] == ctx.verts
      && r.0.vertArena == AllocVerts(ctx.vertArena, VertCount(paths) + r.0.calls[|ctx.calls|].triangleCount, vertsOk).0
    ensures r.1 == UniformsFailed <==>
      && r.1 != VertsFailed
      && |ctx.uniforms| + (if IsConvex(paths) then 1 else 2) > ctx.uniformArena.capacity && !uniformsOk
    ensures r.1 == UniformsFailed ==>
      && r.0.uniforms == ctx.uniforms && r.0.uniformArena == ctx.uniformArena
      && r.0.calls[|ctx.calls|].uniformOffset == -1
    ensures r.1 == Staged ==>
      && r.0.calls[|ctx.calls|].uniformOffset == |ctx.uniforms| * ctx.fragSize
      && |r.0.uniforms| == |ctx.uniforms| + (if IsConvex(paths) then 1 else 2)
      && r.0.uniforms[..|ctx.uniforms|] == ctx.uniforms
      && r.0.uniformArena
           == AllocFragUniforms(ctx.uniformArena, if IsConvex(paths) then 1 else 2, ctx.fragSize, uniformsOk).0
  {
    var convex := IsConvex(paths);
    var triangles := if convex then 0 else 4;
    var (c1, pathOffset) := AllocPaths(ctx, |paths|);
    var call := CallHead(if convex then ConvexFill else Fill, paint, op, pathOffset, |paths|)
                  .(triangleCount := triangles);
    var (va, offset) := AllocVerts(ctx.vertArena, VertCount(paths) + triangles, vertsOk);
    if offset == -1 then (c1.(calls := ctx.calls + [call]), VertsFailed)
    else
      var quad := if convex then [] else Quad(bounds);
      var c2 := c1.(paths := ctx.paths + FillLayout(paths, offset), vertArena := va,
                    verts := ctx.verts + FillVerts(paths) + quad);
      var call2 := if convex then call else call.(triangleOffset := offset + VertCount(paths));
      var (ua, uoff) := AllocFragUniforms(ctx.uniformArena, if convex then 1 else 2, ctx.fragSize, uniformsOk);
      if uoff == -1 then (c2.(calls := ctx.calls + [call2.(uniformOffset := -1)]), UniformsFailed)
      else
        var paintFrag := ConvertPaint(ctx.textures, paint, scissor, fringe, fringe, -1.0, ops).1;
        var blocks := if convex then [paintFrag] else [SimpleFrag, paintFrag];
        (c2.(calls := ctx.calls + [call2.(uniformOffset := uoff)], uniformArena := ua,
             uniforms := ctx.uniforms + blocks), Staged)
  }

  /** A fill that got its vertices: each path record points at that path's
      fill and stroke vertices, laid out consecutively from the old vertex
      count; a non-convex fill's bounding quad follows the last path vertex. */
  lemma RenderFillPlaces(ctx: Context, paint: Paint, op: CompositeOp, scissor: Scissor, fringe: real,
                         bounds: Bounds, paths: seq<NvgPath>, vertsOk: bool, uniformsOk: bool, ops: FloatOps)
    requires ArenasAgree(ctx)
    ensures var (c, st) := RenderFill(ctx, paint, op, scissor, fringe, bounds, paths, vertsOk, uniformsOk, ops);
      var call := c.calls[|ctx.calls|];
      st != VertsFailed ==>
        && (forall i :: 0 <= i < |paths| ==>
              && FillPlaced(c.verts, c.paths[|ctx.paths| + i], paths[i])
              && (|paths[i].fill| > 0 ==>
                    c.paths[|ctx.paths| + i].fillOffset == |ctx.verts| + VertCount(paths[..i]))
              && (|paths[i].stroke| > 0 ==>
                    c.paths[|ctx.paths| + i].strokeOffset == |ctx.verts| + VertCount(paths[..i]) + |paths[i].fill|))
        && (call.kind == Fill ==>
              && call.triangleOffset == |ctx.verts| + VertCount(paths)
              && Holds(c.verts, call.triangleOffset, Quad(bounds)))
  {
    var (c, st) := RenderFill(ctx, paint, op, scissor, fringe, bounds, paths, vertsOk, uniformsOk, ops);
    if st != VertsFailed {
      var quad := if IsConvex(paths) then [] else Quad(bounds);
      assert c.verts == ctx.verts + FillVerts(paths) + quad;
      assert c.paths == ctx.paths + FillLayout(paths, |ctx.verts|);
      FillLayoutPlaces(ctx.verts, paths, quad);
      assert forall i :: 0 <= i < |paths| ==> c.paths[|ctx.paths| + i] == FillLayout(paths, |ctx.verts|)[i];
      if !IsConvex(paths) {
        SliceMiddle(ctx.verts + FillVerts(paths), quad, []);
        assert c.verts == ctx.verts + FillVerts(paths) + quad + [];
      }
    }
  }

  lemma {:induction false} VertCountAppend(a: seq<NvgPath>, b: seq<NvgPath>)
    ensures VertCount(a + b) == VertCount(a) + VertCount(b)
    decreases |a|
  {
    if |a| == 0 {
      assert a + b == b;
    } else {
      assert (a + b)[0] == a[0] && (a + b)[1..] == a[1..] + b;
      VertCountAppend(a[1..], b);
    }
  }

  /** The vertices of the paths before `j` include all of path `i < j`. */
  lemma VertCountBefore(paths: seq<NvgPath>, i: int, j: int)
    requires 0 <= i < j <= |paths|
    ensures VertCount(paths[..i]) + |paths[i].fill| + |paths[i].stroke| <= VertCount(paths[..j])
  {
    assert paths[..j] == paths[..i] + ([paths[i]] + paths[i + 1..j]);
    VertCountAppend(paths[..i], [paths[i]] + paths[i + 1..j]);
    VertCountAppend([paths[i]], paths[i + 1..j]);
    assert ([paths[i]] + paths[i + 1..j])[..1] == [paths[i]];
    assert VertCount([paths[i]]) == |paths[i].fill| + |paths[i].stroke| + VertCount([paths[i]][1..]);
  }

  /** Every non-empty range of `a` ends where or before every non-empty
      range of `b` starts. */
  predicate Precedes(a: GlPath, b: GlPath) {
    && (a.fillCount > 0 && b.fillCount > 0 ==> a.fillOffset + a.fillCount <= b.fillOffset)
    && (a.fillCount > 0 && b.strokeCount > 0 ==> a.fillOffset + a.fillCount <= b.strokeOffset)
    && (a.strokeCount > 0 && b.fillCount > 0 ==> a.strokeOffset + a.strokeCount <= b.fillOffset)
    && (a.strokeCount > 0 && b.strokeCount > 0 ==> a.strokeOffset + a.strokeCount <= b.strokeOffset)
  }

  /** Within one record the fill precedes the fringe, and both end by `end`. */
  predicate OrderedWithin(a: GlPath, end: int) {
    && (a.fillCount > 0 && a.strokeCount > 0 ==> a.fillOffset + a.fillCount <= a.strokeOffset)
    && (a.fillCount > 0 ==> a.fillOffset + a.fillCount <= end)
    && (a.strokeCount > 0 ==> a.strokeOffset + a.strokeCount <= end)
  }

  /** Path records whose vertex ranges are pairwise disjoint, in record
      order, all ending by `end`. */
  predicate LaidOutInOrder(ps: seq<GlPath>, end: int) {
    && (forall i :: 0 <= i < |ps| ==> OrderedWithin(ps[i], end))
    && (forall i, j :: 0 <= i < j < |ps| ==> Precedes(ps[i], ps[j]))
  }

  lemma FillLayoutDisjoint(prefix: seq<Vertex>, paths: seq<NvgPath>)
    ensures LaidOutInOrder(FillLayout(paths, |prefix|), |prefix| + VertCount(paths))
  {
    var l := FillLayout(paths, |prefix|);
    FillLayoutPlaces(prefix, paths, []);
    forall i | 0 <= i < |paths| ensures OrderedWithin(l[i], |prefix| + VertCount(paths)) {
      VertCountBefore(paths, i, |paths|);
      assert paths[..|paths|] == paths;
    }
    forall i, j | 0 <= i < j < |paths| ensures Precedes(l[i], l[j]) {
      VertCountBefore(paths, i, j);
    }
  }

  /** A fill's vertex ranges do not overlap: within a path the fill precedes
      the fringe, every range of an earlier path ends before any range of a
      later one starts, and a non-convex fill's quad comes after them all. */
  lemma RenderFillDisjoint(ctx: Context, paint: Paint, op: CompositeOp, scissor: Scissor, fringe: real,
                           bounds: Bounds, paths: seq<NvgPath>, vertsOk: bool, uniformsOk: bool, ops: FloatOps)
    requires ArenasAgree(ctx)
    ensures var (c, st) := RenderFill(ctx, paint, op, scissor, fringe, bounds, paths, vertsOk, uniformsOk, ops);
      st != VertsFailed ==>
        && LaidOutInOrder(c.paths[|ctx.paths|..], |ctx.verts| + VertCount(paths))
        && (c.calls[|ctx.calls|].kind == Fill ==>
              c.calls[|ctx.calls|].triangleOffset == |ctx.verts| + VertCount(paths))
  {
    var (c, st) := RenderFill(ctx, paint, op, scissor, fringe, bounds, paths, vertsOk, uniformsOk, ops);
    if st != VertsFailed {
      assert c.paths == ctx.paths + FillLayout(paths, |ctx.verts|);
      assert c.paths[|ctx.paths|..] == FillLayout(paths, |ctx.verts|);
      FillLayoutDisjoint(ctx.verts, paths);
    }
  }

  /** The uniform blocks a staged fill writes: a convex fill one paint block;
      any other fill a zeroed simple-shader block with threshold -1 for the
      stencil pass, then the paint block. The paint block is the paint
      conversion with stroke width and fringe both the fringe width and no
      threshold. */
  lemma RenderFillUniforms(ctx: Context, paint: Paint, op: CompositeOp, scissor: Scissor, fringe: real,
                           bounds: Bounds, paths: seq<NvgPath>, vertsOk: bool, uniformsOk: bool, ops: FloatOps)
    requires ArenasAgree(ctx)
    ensures var (c, st) := RenderFill(ctx, paint, op, scissor, fringe, bounds, paths, vertsOk, uniformsOk, ops);
      var n := |ctx.uniforms|;
      var paintFrag := ConvertPaint(ctx.textures, paint, scissor, fringe, fringe, -1.0, ops).1;
      st == Staged ==>
        if IsConvex(paths) then c.uniforms[n] == paintFrag
        else
          && c.uniforms[n] == SimpleFrag
          && c.uniforms[n].shaderType == Simple && c.uniforms[n].strokeThr == -1.0
          && c.uniforms[n + 1] == paintFrag
  {
  }

  /** `glnvg__renderStroke`. Reserves room for every path's fill and stroke
      vertices but copies only the strokes. */
  function RenderStroke(ctx: Context, paint: Paint, op: CompositeOp, scissor: Scissor, fringe: real,
                        strokeWidth: real, paths: seq<NvgPath>, vertsOk: bool, uniformsOk: bool, ops: FloatOps)
    : (r: (Context, Status))
    requires ArenasAgree(ctx)
    ensures Appended(ctx, r.0, paint, op)
    ensures var call := r.0.calls[|ctx.calls|];
      && call.kind == Stroke && call.triangleCount == 0 && call.triangleOffset == 0
      && call.pathOffset == |ctx.paths| && call.pathCount == |paths|
    ensures |r.0.paths| == |ctx.paths| + |paths| && r.0.paths[..|ctx.paths|] == ctx.paths
    ensures r.1 == VertsFailed <==> |ctx.verts| + VertCount(paths) > ctx.vertArena.capacity && !vertsOk
    ensures r.1 == VertsFailed ==>
      && r.0.verts == ctx.verts && r.0.uniforms == ctx.uniforms
      && r.0.vertArena == ctx.vertArena && r.0.uniformArena == ctx.uniformArena
      && r.0.calls[|ctx.calls|].uniformOffset == 0
      && forall k :: |ctx.paths| <= k < |r.0.paths| ==> r.0.paths[k] == ZeroPath
    ensures r.1 != VertsFailed ==>
      && |r.0.verts| == |ctx.verts| + VertCount(paths)
      && r.0.verts[..|ctx.verts|] == ctx.verts
      && r.0.vertArena == AllocVerts(ctx.vertArena, VertCount(paths), vertsOk).0
    ensures r.1 == UniformsFailed <==>
      && r.1 != VertsFailed
      && |ctx.uniforms| + (if ctx.flags.stencilStrokes then 2 else 1) > ctx.uniformArena.capacity && !uniformsOk
    ensures r.1 == UniformsFailed ==>
      && r.0.uniforms == ctx.uniforms && r.0.uniformArena == ctx.uniformArena
      && r.0.calls[|ctx.calls|].uniformOffset == -1
    ensures r.1 == Staged ==>
      && r.0.calls[|ctx.calls|].uniformOffset == |ctx.uniforms| * ctx.fragSize
      && |r.0.uniforms| == |ctx.uniforms| + (if ctx.flags.stencilStrokes then 2 else 1)
      && r.0.uniforms[..|ctx.uniforms|] == ctx.uniforms
      && r.0.uniformArena
           == AllocFragUniforms(ctx.uniformArena, if ctx.flags.stencilStrokes then 2 else 1, ctx.fragSize, uniformsOk).0
  {
    var (c1, pathOffset) := AllocPaths(ctx, |paths|);
    var call := CallHead(Stroke, paint, op, pathOffset, |paths|);
    var (va, offset) := AllocVerts(ctx.vertArena, VertCount(paths), vertsOk);
    if offset == -1 then (c1.(calls := ctx.calls + [call]), VertsFailed)
    else
      var c2 := c1.(paths := ctx.paths + StrokeLayout(paths, offset), vertArena := va,
                    verts := ctx.verts + StrokeVerts(paths) + Blanks(VertCount(paths) - StrokeCount(paths)));
      var nblocks := if ctx.flags.stencilStrokes then 2 else 1;
      var (ua, uoff) := AllocFragUniforms(ctx.uniformArena, nblocks, ctx.fragSize, uniformsOk);
      if uoff == -1 then (c2.(calls := ctx.calls + [call.(uniformOffset := -1)]), UniformsFailed)
      else
        var base := ConvertPaint(ctx.textures, paint, scissor, strokeWidth, fringe, -1.0, ops).1;
        var blocks :=
          if ctx.flags.stencilStrokes then
            [base, ConvertPaint(ctx.textures, paint, scissor, strokeWidth, fringe, StrokeThreshold, ops).1]
          else [base];
        (c2.(calls := ctx.calls + [call.(uniformOffset := uoff)], uniformArena := ua,
             uniforms := ctx.uniforms + blocks), Staged)
  }

  /** A stroke that got its vertices: each path record points at that path's
      stroke vertices, laid out consecutively from the old vertex count, and
      has no fill range. */
  lemma RenderStrokePlaces(ctx: Context, paint: Paint, op: CompositeOp, scissor: Scissor, fringe: real,
                           strokeWidth: real, paths: seq<NvgPath>, vertsOk: bool, uniformsOk: bool, ops: FloatOps)
    requires ArenasAgree(ctx)
    ensures var (c, st) := RenderStroke(ctx, paint, op, scissor, fringe, strokeWidth, paths, vertsOk, uniformsOk, ops);
      st != VertsFailed ==>
        forall i :: 0 <= i < |paths| ==>
          && c.paths[|ctx.paths| + i].fillOffset == 0 && c.paths[|ctx.paths| + i].fillCount == 0
          && StrokePlaced(c.verts, c.paths[|ctx.paths| + i], paths[i])
          && (|paths[i].stroke| > 0 ==>
                c.paths[|ctx.paths| + i].strokeOffset == |ctx.verts| + StrokeCount(paths[..i]))
  {
    var (c, st) := RenderStroke(ctx, paint, op, scissor, fringe, strokeWidth, paths, vertsOk, uniformsOk, ops);
    if st != VertsFailed {
      var blanks := Blanks(VertCount(paths) - StrokeCount(paths));
      assert c.verts == ctx.verts + StrokeVerts(paths) + blanks;
      assert c.paths == ctx.paths + StrokeLayout(paths, |ctx.verts|);
      StrokeLayoutPlaces(ctx.verts, paths, blanks);
      assert forall i :: 0 <= i < |paths| ==> c.paths[|ctx.paths| + i] == StrokeLayout(paths, |ctx.verts|)[i];
    }
  }

  /** The uniform blocks a staged stroke writes: with stencil strokes, the
      paint block without threshold and then one with the just-under-one
      threshold; otherwise the block without threshold alone. */
  lemma RenderStrokeUniforms(ctx: Context, paint: Paint, op: CompositeOp, scissor: Scissor, fringe: real,
                             strokeWidth: real, paths: seq<NvgPath>, vertsOk: bool, uniformsOk: bool, ops: FloatOps)
    requires ArenasAgree(ctx)
    ensures var (c, st) := RenderStroke(ctx, paint, op, scissor, fringe, strokeWidth, paths, vertsOk, uniformsOk, ops);
      var n := |ctx.uniforms|;
      st == Staged ==>
        && c.uniforms[n] == ConvertPaint(ctx.textures, paint, scissor, strokeWidth, fringe, -1.0, ops).1
        && c.uniforms[n].strokeThr == -1.0
        && (ctx.flags.stencilStrokes ==>
              && c.uniforms[n + 1] == ConvertPaint(ctx.textures, paint, scissor, strokeWidth, fringe, StrokeThreshold, ops).1
              && c.uniforms[n + 1].strokeThr == StrokeThreshold)
  {
  }

  /** `glnvg__renderTriangles`: copies the vertices verbatim and writes one
      block, the paint conversion with stroke width 1 and the raw-image
      shader. A failed vertex allocation leaves -1 as the triangle offset. */
  function RenderTriangles(ctx: Context, paint: Paint, op: CompositeOp, scissor: Scissor, verts: seq<Vertex>,
                           fringe: real, vertsOk: bool, uniformsOk: bool, ops: FloatOps)
    : (r: (Context, Status))
    requires ArenasAgree(ctx)
    ensures Appended(ctx, r.0, paint, op)
    ensures r.0.paths == ctx.paths
    ensures var call := r.0.calls[|ctx.calls|];
      && call.kind == TrianglesCall && call.pathOffset == 0 && call.pathCount == 0
    ensures r.1 == VertsFailed <==> |ctx.verts| + |verts| > ctx.vertArena.capacity && !vertsOk
    ensures r.1 == VertsFailed ==>
      && r.0.verts == ctx.verts && r.0.uniforms == ctx.uniforms
      && r.0.vertArena == ctx.vertArena && r.0.uniformArena == ctx.uniformArena
      && r.0.calls[|ctx.calls|].triangleOffset == -1 && r.0.calls[|ctx.calls|].triangleCount == 0
      && r.0.calls[|ctx.calls|].uniformOffset == 0
    ensures r.1 != VertsFailed ==>
      && r.0.calls[|ctx.calls|].triangleOffset == |ctx.verts|
      && r.0.calls[|ctx.calls|].triangleCount == |verts|
      && r.0.verts == ctx.verts + verts
      && r.0.vertArena == AllocVerts(ctx.vertArena, |verts|, vertsOk).0
    ensures r.1 == UniformsFailed <==>
      r.1 != VertsFailed && |ctx.uniforms| + 1 > ctx.uniformArena.capacity && !uniformsOk
    ensures r.1 == UniformsFailed ==>
      && r.0.uniforms == ctx.uniforms && r.0.uniformArena == ctx.uniformArena
      && r.0.calls[|ctx.calls|].uniformOffset == -1
    ensures r.1 == Staged ==>
      && r.0.calls[|ctx.calls|].uniformOffset == |ctx.uniforms| * ctx.fragSize
      && |r.0.uniforms| == |ctx.uniforms| + 1
      && r.0.uniforms[..|ctx.uniforms|] == ctx.uniforms
      && r.0.uniformArena == AllocFragUniforms(ctx.uniformArena, 1, ctx.fragSize, uniformsOk).0
      && r.0.uniforms[|ctx.uniforms|].shaderType == Img
      && r.0.uniforms[|ctx.uniforms|]
           == ConvertPaint(ctx.textures, paint, scissor, 1.0, fringe, -1.0, ops).1.(shaderType := Img)
  {
    var call := CallHead(TrianglesCall, paint, op, 0, 0);
    var (va, toff) := AllocVerts(ctx.vertArena, |verts|, vertsOk);
    if toff == -1 then (ctx.(calls := ctx.calls + [call.(triangleOffset := -1)]), VertsFailed)
    else
      var call2 := call.(triangleOffset := toff, triangleCount := |verts|);
      var c2 := ctx.(vertArena := va, verts := ctx.verts + verts);
      var (ua, uoff) := AllocFragUniforms(ctx.uniformArena, 1, ctx.fragSize, uniformsOk);
      if uoff == -1 then (c2.(calls := ctx.calls + [call2.(uniformOffset := -1)]), UniformsFailed)
      else
        var frag := ConvertPaint(ctx.textures, paint, scissor, 1.0, fringe, -1.0, ops).1.(shaderType := Img);
        (c2.(calls := ctx.calls + [call2.(uniformOffset := uoff)], uniformArena := ua,
             uniforms := ctx.uniforms + [frag]), Staged)
  }

  /** Uniform blocks a call of each kind reads. */
  function UniformBlocks(kind: CallType, flags: CreateFlags): nat {
    match kind
    case Fill => 2
    case Stroke => if flags.stencilStrokes then 2 else 1
    case ConvexFill => 1
    case TrianglesCall => 1
    case CallNone => 0
  }

  /** Both vertex ranges of a path record lie within `n` vertices. */
  predicate PathInBounds(gp: GlPath, n: int) {
    && gp.fillCount >= 0 && gp.strokeCount >= 0
    && (gp.fillCount > 0 ==> 0 <= gp.fillOffset && gp.fillOffset + gp.fillCount <= n)
    && (gp.strokeCount > 0 ==> 0 <= gp.strokeOffset && gp.strokeOffset + gp.strokeCount <= n)
  }

  /** Every range a call names lies inside the arenas: its path records,
      their vertices, its triangle range, and the uniform blocks it reads
      at a multiple of the stride. */
  predicate CallInBounds(ctx: Context, call: Call) {
    && call.pathCount >= 0 && 0 <= call.pathOffset && call.pathOffset + call.pathCount <= |ctx.paths|
    && (forall k :: call.pathOffset <= k < call.pathOffset + call.pathCount ==>
          PathInBounds(ctx.paths[k], |ctx.verts|))
    && call.triangleCount >= 0
    && (call.triangleCount > 0 ==>
          0 <= call.triangleOffset && call.triangleOffset + call.triangleCount <= |ctx.verts|)
    && ctx.fragSize > 0 && call.uniformOffset >= 0 && call.uniformOffset % ctx.fragSize == 0
    && call.uniformOffset / ctx.fragSize + UniformBlocks(call.kind, ctx.flags) <= |ctx.uniforms|
  }

  /** `c` extends the frame of `ctx`: nothing already staged moves. */
  predicate Grows(ctx: Context, c: Context) {
    && |c.paths| >= |ctx.paths| && c.paths[..|ctx.paths|] == ctx.paths
    && |c.verts| >= |ctx.verts| && c.verts[..|ctx.verts|] == ctx.verts
    && |c.uniforms| >= |ctx.uniforms| && c.uniforms[..|ctx.uniforms|] == ctx.uniforms
    && c.fragSize == ctx.fragSize && c.flags == ctx.flags
  }

  lemma InBoundsPreserved(ctx: Context, c: Context, call: Call)
    requires Grows(ctx, c) && CallInBounds(ctx, call)
    ensures CallInBounds(c, call)
  {
    forall k | call.pathOffset <= k < call.pathOffset + call.pathCount
      ensures PathInBounds(c.paths[k], |c.verts|)
    {
      assert c.paths[k] == c.paths[..|ctx.paths|][k];
    }
  }

  /** Staging never moves earlier calls' data: calls in bounds before are in
      bounds after. */
  lemma EarlierCallsStay(ctx: Context, c: Context)
    requires Grows(ctx, c) && |c.calls| >= |ctx.calls| && c.calls[..|ctx.calls|] == ctx.calls
    ensures forall j :: 0 <= j < |ctx.calls| && CallInBounds(ctx, ctx.calls[j]) ==> CallInBounds(c, c.calls[j])
  {
    forall j | 0 <= j < |ctx.calls| && CallInBounds(ctx, ctx.calls[j])
      ensures CallInBounds(c, c.calls[j])
    {
      assert c.calls[j] == c.calls[..|ctx.calls|][j];
      InBoundsPreserved(ctx, c, ctx.calls[j]);
    }
  }

  lemma UniformSlot(n: nat, fragSize: nat)
    requires fragSize > 0
    ensures (n * fragSize) % fragSize == 0 && (n * fragSize) / fragSize == n && n * fragSize >= 0
  {
    MultipleMod(n, fragSize);
  }

  /** A fill whose staging completed names only data inside the arenas, and
      leaves every earlier call's data where it was. */
  lemma RenderFillInBounds(ctx: Context, paint: Paint, op: CompositeOp, scissor: Scissor, fringe: real,
                           bounds: Bounds, paths: seq<NvgPath>, vertsOk: bool, uniformsOk: bool, ops: FloatOps)
    requires ArenasAgree(ctx) && ctx.fragSize > 0
    ensures var (c, st) := RenderFill(ctx, paint, op, scissor, fringe, bounds, paths, vertsOk, uniformsOk, ops);
      && Grows(ctx, c)
      && (forall j :: 0 <= j < |ctx.calls| && CallInBounds(ctx, ctx.calls[j]) ==> CallInBounds(c, c.calls[j]))
      && (st == Staged ==> CallInBounds(c, c.calls[|ctx.calls|]))
  {
    var (c, st) := RenderFill(ctx, paint, op, scissor, fringe, bounds, paths, vertsOk, uniformsOk, ops);
    EarlierCallsStay(ctx, c);
    if st == Staged {
      var call := c.calls[|ctx.calls|];
      RenderFillPlaces(ctx, paint, op, scissor, fringe, bounds, paths, vertsOk, uniformsOk, ops);
      forall k | call.pathOffset <= k < call.pathOffset + call.pathCount
        ensures PathInBounds(c.paths[k], |c.verts|)
      {
        assert FillPlaced(c.verts, c.paths[|ctx.paths| + (k - |ctx.paths|)], paths[k - |ctx.paths|]);
      }
      UniformSlot(|ctx.uniforms|, ctx.fragSize);
    }
  }

  lemma RenderStrokeInBounds(ctx: Context, paint: Paint, op: CompositeOp, scissor: Scissor, fringe: real,
                             strokeWidth: real, paths: seq<NvgPath>, vertsOk: bool, uniformsOk: bool, ops: FloatOps)
    requires ArenasAgree(ctx) && ctx.fragSize > 0
    ensures var (c, st) := RenderStroke(ctx, paint, op, scissor, fringe, strokeWidth, paths, vertsOk, uniformsOk, ops);
      && Grows(ctx, c)
      && (forall j :: 0 <= j < |ctx.calls| && CallInBounds(ctx, ctx.calls[j]) ==> CallInBounds(c, c.calls[j]))
      && (st == Staged ==> CallInBounds(c, c.calls[|ctx.calls|]))
  {
    var (c, st) := RenderStroke(ctx, paint, op, scissor, fringe, strokeWidth, paths, vertsOk, uniformsOk, ops);
    EarlierCallsStay(ctx, c);
    if st == Staged {
      var call := c.calls[|ctx.calls|];
      RenderStrokePlaces(ctx, paint, op, scissor, fringe, strokeWidth, paths, vertsOk, uniformsOk, ops);
      forall k | call.pathOffset <= k < call.pathOffset + call.pathCount
        ensures PathInBounds(c.paths[k], |c.verts|)
      {
        assert StrokePlaced(c.verts, c.paths[|ctx.paths| + (k - |ctx.paths|)], paths[k - |ctx.paths|]);
      }
      UniformSlot(|ctx.uniforms|, ctx.fragSize);
    }
  }

  lemma RenderTrianglesInBounds(ctx: Context, paint: Paint, op: CompositeOp, scissor: Scissor, verts: seq<Vertex>,
                                fringe: real, vertsOk: bool, uniformsOk: bool, ops: FloatOps)
    requires ArenasAgree(ctx) && ctx.fragSize > 0
    ensures var (c, st) := RenderTriangles(ctx, paint, op, scissor, verts, fringe, vertsOk, uniformsOk, ops);
      && Grows(ctx, c)
      && (forall j :: 0 <= j < |ctx.calls| && CallInBounds(ctx, ctx.calls[j]) ==> CallInBounds(c, c.calls[j]))
      && (st == Staged ==> CallInBounds(c, c.calls[|ctx.calls|]))
  {
    var (c, st) := RenderTriangles(ctx, paint, op, scissor, verts, fringe, vertsOk, uniformsOk, ops);
    EarlierCallsStay(ctx, c);
    if st == Staged {
      UniformSlot(|ctx.uniforms|, ctx.fragSize);
    }
  }

  /** Staging keeps every call dispatchable, including a call whose vertex
      or uniform allocation failed: the path records are always allocated
      and the blend always set. */
  lemma {:induction false} StagedCallsDispatchable(ctx: Context, c: Context, pathCount: nat)
    requires CallsDispatchable(ctx)
    requires |c.calls| == |ctx.calls| + 1 && c.calls[..|ctx.calls|] == ctx.calls
    requires |c.paths| >= |ctx.paths|
    requires ValidBlend(c.calls[|ctx.calls|].blend)
    requires var call := c.calls[|ctx.calls|];
      call.pathCount == pathCount && 0 <= call.pathOffset && call.pathOffset + pathCount <= |c.paths|
    ensures CallsDispatchable(c)
  {
    forall j | 0 <= j < |c.calls| ensures Dispatchable(c, c.calls[j]) {
      if j < |ctx.calls| {
        assert c.calls[j] == c.calls[..|ctx.calls|][j];
        assert Dispatchable(ctx, ctx.calls[j]);
      }
    }
  }

  lemma RenderFillDispatchable(ctx: Context, paint: Paint, op: CompositeOp, scissor: Scissor, fringe: real,
                               bounds: Bounds, paths: seq<NvgPath>, vertsOk: bool, uniformsOk: bool, ops: FloatOps)
    requires ArenasAgree(ctx) && CallsDispatchable(ctx)
    ensures CallsDispatchable(RenderFill(ctx, paint, op, scissor, fringe, bounds, paths, vertsOk, uniformsOk, ops).0)
  {
    var c := RenderFill(ctx, paint, op, scissor, fringe, bounds, paths, vertsOk, uniformsOk, ops).0;
    StagedCallsDispatchable(ctx, c, |paths|);
  }

  lemma RenderStrokeDispatchable(ctx: Context, paint: Paint, op: CompositeOp, scissor: Scissor, fringe: real,
                                 strokeWidth: real, paths: seq<NvgPath>, vertsOk: bool, uniformsOk: bool, ops: FloatOps)
    requires ArenasAgree(ctx) && CallsDispatchable(ctx)
    ensures CallsDispatchable(RenderStroke(ctx, paint, op, scissor, fringe, strokeWidth, paths, vertsOk, uniformsOk, ops).0)
  {
    var c := RenderStroke(ctx, paint, op, scissor, fringe, strokeWidth, paths, vertsOk, uniformsOk, ops).0;
    StagedCallsDispatchable(ctx, c, |paths|);
  }

  lemma RenderTrianglesDispatchable(ctx: Context, paint: Paint, op: CompositeOp, scissor: Scissor, verts: seq<Vertex>,
                                    fringe: real, vertsOk: bool, uniformsOk: bool, ops: FloatOps)
    requires ArenasAgree(ctx) && CallsDispatchable(ctx)
    ensures CallsDispatchable(RenderTriangles(ctx, paint, op, scissor, verts, fringe, vertsOk, uniformsOk, ops).0)
  {
    var c := RenderTriangles(ctx, paint, op, scissor, verts, fringe, vertsOk, uniformsOk, ops).0;
    StagedCallsDispatchable(ctx, c, 0);
  }
}
