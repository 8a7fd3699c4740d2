/** Texture objects (`GLNVGtexture`): id assignment, the flag-to-parameter
    decision tables, uploads with save/restore of the pixel-unpack state, the
    wrapping of an external GL texture, and the ownership-aware destructor.

    The process-wide id counter is an explicit `last: nat` threaded through
    construction; the GL texture name that `glGenTextures` hands out is a
    parameter.
 */
module Textures {
  import opened GlModel
  import opened NvgTypes

  datatype Texture = Texture(
    id: int,
    handle: int,
    width: int,
    height: int,
    pixelType: PixelType,
    flags: ImageFlags)

  /** Constructing a texture pre-increments the process-wide counter and takes
      its new value as the id. */
  function NewId(last: nat): (id: nat)
    ensures id >= 1 && id > last
    ensures id - 1 == last
  {
    last + 1
  }

  /** The ids handed to `n` textures constructed one after another. */
  function IdsFrom(last: nat, n: nat): seq<nat>
    decreases n
  {
    if n == 0 then [] else [NewId(last)] + IdsFrom(NewId(last), n - 1)
  }

  /** Ids are positive, above every earlier value of the counter, and strictly
      increasing in construction order; hence no id is handed out twice. */
  lemma {:induction false} IdsIncreasing(last: nat, n: nat)
    ensures |IdsFrom(last, n)| == n
    ensures forall k :: 0 <= k < n ==> IdsFrom(last, n)[k] > last && IdsFrom(last, n)[k] >= 1
    ensures forall j, k :: 0 <= j < k < n ==> IdsFrom(last, n)[j] < IdsFrom(last, n)[k]
    decreases n
  {
    if n > 0 {
      IdsIncreasing(NewId(last), n - 1);
      var rest := IdsFrom(NewId(last), n - 1);
      assert IdsFrom(last, n) == [last + 1] + rest;
      forall j, k | 0 <= j < k < n ensures IdsFrom(last, n)[j] < IdsFrom(last, n)[k] {
        if j > 0 {
          assert IdsFrom(last, n)[j] == rest[j - 1];
        }
        assert IdsFrom(last, n)[k] == rest[k - 1];
      }
    }
  }

  /** Minification filter: a mipmap chain only with GENERATE_MIPMAPS, sampled
      nearest-first only with NEAREST. */
  function MinFilterFor(flags: ImageFlags): (f: TexFilter)
    ensures f == NearestMipmapNearest <==> flags.generateMipmaps && flags.nearest
    ensures f == LinearMipmapLinear <==> flags.generateMipmaps && !flags.nearest
    ensures f == Nearest <==> !flags.generateMipmaps && flags.nearest
    ensures f == Linear <==> !flags.generateMipmaps && !flags.nearest
  {
    if flags.generateMipmaps then
      (if flags.nearest then NearestMipmapNearest else LinearMipmapLinear)
    else
      (if flags.nearest then Nearest else Linear)
  }

  /** Magnification filter: never a mipmap filter; NEAREST alone decides it. */
  function MagFilterFor(flags: ImageFlags): (f: TexFilter)
    ensures f == Nearest || f == Linear
    ensures f == Nearest <==> flags.nearest
  {
    if flags.nearest then Nearest else Linear
  }

  /** Horizontal wrap: REPEAT exactly when REPEATX is set. */
  function WrapSFor(flags: ImageFlags): (w: TexWrap)
    ensures w == Repeat <==> flags.repeatX
    ensures w == ClampToEdge <==> !flags.repeatX
  {
    if flags.repeatX then Repeat else ClampToEdge
  }

  /** Vertical wrap: REPEAT exactly when REPEATY is set. */
  function WrapTFor(flags: ImageFlags): (w: TexWrap)
    ensures w == Repeat <==> flags.repeatY
    ensures w == ClampToEdge <==> !flags.repeatY
  {
    if flags.repeatY then Repeat else ClampToEdge
  }

  /** The mag filter and the two wrap modes each read one flag only. */
  lemma ParametersIndependent(f: ImageFlags, g: ImageFlags)
    ensures f.nearest == g.nearest ==> MagFilterFor(f) == MagFilterFor(g)
    ensures f.repeatX == g.repeatX ==> WrapSFor(f) == WrapSFor(g)
    ensures f.repeatY == g.repeatY ==> WrapTFor(f) == WrapTFor(g)
  {
  }

  /** RGBA textures upload as RGBA; every other type uploads as one red channel. */
  function FormatFor(t: PixelType): (f: PixelFormat)
    ensures f == FormatRgba <==> t == TextureRgba
  {
    if t == TextureRgba then FormatRgba else FormatRed
  }

  /** The four `glPixelStorei` calls that set every unpack parameter. */
  function SetUnpackAll(u: Unpack): seq<Cmd> {
    [PixelStore(UnpackAlignment, u.alignment), PixelStore(UnpackRowLength, u.rowLength),
     PixelStore(UnpackSkipPixels, u.skipPixels), PixelStore(UnpackSkipRows, u.skipRows)]
  }

  lemma SetUnpackAllRuns(s: GlState, u: Unpack)
    ensures Run(s, SetUnpackAll(u)) == s.(unpack := u)
    ensures Effects(s, SetUnpackAll(u)) == []
  {
    var p0 := PixelStore(UnpackAlignment, u.alignment);
    var p1 := PixelStore(UnpackRowLength, u.rowLength);
    var p2 := PixelStore(UnpackSkipPixels, u.skipPixels);
    var p3 := PixelStore(UnpackSkipRows, u.skipRows);
    var s1 := Step(s, p0);
    var s2 := Step(s1, p1);
    var s3 := Step(s2, p2);
    assert Step(s3, p3) == s.(unpack := u);
    RunOne(s3, p3);
    RunCons(s2, p2, [p3]);
    RunCons(s1, p1, [p2] + [p3]);
    RunCons(s, p0, [p1] + ([p2] + [p3]));
    assert SetUnpackAll(u) == [p0] + ([p1] + ([p2] + [p3]));
  }

  /** The texture-parameter calls `load` makes for the given flags. */
  function ParameterCmds(flags: ImageFlags): seq<Cmd> {
    [TexParameter(MinFilter(MinFilterFor(flags))), TexParameter(MagFilter(MagFilterFor(flags))),
     TexParameter(WrapS(WrapSFor(flags))), TexParameter(WrapT(WrapTFor(flags)))]
  }

  function MipmapCmds(flags: ImageFlags): seq<Cmd> {
    if flags.generateMipmaps then [GenerateMipmap] else []
  }

  /** `load` up to and including the texture parameters. */
  function LoadSetup(handle: int, w: int, h: int, pixelType: PixelType, flags: ImageFlags): seq<Cmd> {
    LoadHead(handle)
    + (SetUnpackAll(Unpack(1, w, 0, 0))
       + ([TexImage2D(FormatFor(pixelType), w, h)] + ParameterCmds(flags)))
  }

  /** Generating the texture and binding it (the bind is issued twice). */
  function LoadHead(handle: int): seq<Cmd> {
    [Gl(GenTexture(handle)), BindTexture(handle), BindTexture(handle)]
  }

  /** The rest of `load`: restore, optional mipmaps, unbind. */
  function LoadFinish(flags: ImageFlags): seq<Cmd> {
    SetUnpackAll(DefaultUnpack) + MipmapCmds(flags) + [BindTexture(0), BindTexture(0)]
  }

  /** `load`: a new texture object from a fresh GL texture `handle`, with its
      image specified, its parameters chosen from the flags, its mipmaps
      generated on request, and the unpack state put back to GL's defaults. */
  function Load(last: nat, handle: int, w: int, h: int, pixelType: PixelType, flags: ImageFlags)
    : (r: (Texture, nat, seq<Cmd>))
    ensures r.0 == Texture(NewId(last), handle, w, h, pixelType, flags)
    ensures r.1 == r.0.id
    ensures |r.2| > 0 && r.2[0] == Gl(GenTexture(handle)) && r.2[|r.2| - 1] == BindTexture(0)
  {
    var tex := Texture(NewId(last), handle, w, h, pixelType, flags);
    (tex, tex.id, LoadSetup(handle, w, h, pixelType, flags) + LoadFinish(flags))
  }

  lemma {:induction false} LoadHeadRuns(s: GlState, handle: int)
    ensures Run(s, LoadHead(handle)) == s.(texture := handle)
    ensures Effects(s, LoadHead(handle)) == []
  {
    var s1 := s.(texture := handle);
    RunOne(s1, BindTexture(handle));
    RunCons(s, BindTexture(handle), [BindTexture(handle)]);
    RunCons(s, Gl(GenTexture(handle)), [BindTexture(handle)] + [BindTexture(handle)]);
    assert LoadHead(handle) == [Gl(GenTexture(handle))] + ([BindTexture(handle)] + [BindTexture(handle)]);
  }

  lemma {:induction false} ImageThenParamsRuns(s: GlState, img: Cmd, flags: ImageFlags)
    requires img.TexImage2D?
    ensures var params := ParameterCmds(flags);
      && Run(s, [img] + params) == s
      && Effects(s, [img] + params)
         == [Effect(s, img), Effect(s, params[0]), Effect(s, params[1]), Effect(s, params[2]), Effect(s, params[3])]
  {
    DrawlessParams(s, ParameterCmds(flags));
    RunCons(s, img, ParameterCmds(flags));
  }

  lemma {:induction false} LoadSetupRuns(s: GlState, handle: int, w: int, h: int, pixelType: PixelType, flags: ImageFlags)
    ensures var s2 := s.(texture := handle, unpack := Unpack(1, w, 0, 0));
      var params := ParameterCmds(flags);
      && Run(s, LoadSetup(handle, w, h, pixelType, flags)) == s2
      && Effects(s, LoadSetup(handle, w, h, pixelType, flags))
         == [Effect(s2, TexImage2D(FormatFor(pixelType), w, h)),
             Effect(s2, params[0]), Effect(s2, params[1]), Effect(s2, params[2]), Effect(s2, params[3])]
  {
    var s1 := s.(texture := handle);
    var s2 := s1.(unpack := Unpack(1, w, 0, 0));
    var up := SetUnpackAll(Unpack(1, w, 0, 0));
    var rest := [TexImage2D(FormatFor(pixelType), w, h)] + ParameterCmds(flags);
    LoadHeadRuns(s, handle);
    SetUnpackAllRuns(s1, Unpack(1, w, 0, 0));
    ImageThenParamsRuns(s2, TexImage2D(FormatFor(pixelType), w, h), flags);
    RunAppend(s1, up, rest);
    RunAppend(s, LoadHead(handle), up + rest);
  }

  lemma MipmapAndUnbindRuns(s: GlState, flags: ImageFlags)
    ensures Run(s, MipmapCmds(flags) + [BindTexture(0), BindTexture(0)]) == s.(texture := 0)
    ensures Effects(s, MipmapCmds(flags) + [BindTexture(0), BindTexture(0)])
      == if flags.generateMipmaps then [Effect(s, GenerateMipmap)] else []
  {
    var tail := [BindTexture(0), BindTexture(0)];
    assert Run(s, tail) == s.(texture := 0) && Effects(s, tail) == [] by {
      RunOne(s.(texture := 0), BindTexture(0));
      RunCons(s, BindTexture(0), [BindTexture(0)]);
    }
    if flags.generateMipmaps {
      RunCons(s, GenerateMipmap, tail);
    } else {
      assert MipmapCmds(flags) + tail == tail;
    }
  }

  lemma LoadFinishRuns(s: GlState, flags: ImageFlags)
    ensures var s3 := s.(unpack := DefaultUnpack);
      && Run(s, LoadFinish(flags)) == s3.(texture := 0)
      && Effects(s, LoadFinish(flags)) == if flags.generateMipmaps then [Effect(s3, GenerateMipmap)] else []
  {
    var rest := MipmapCmds(flags) + [BindTexture(0), BindTexture(0)];
    SetUnpackAllRuns(s, DefaultUnpack);
    MipmapAndUnbindRuns(s.(unpack := DefaultUnpack), flags);
    RunAppend(s, SetUnpackAll(DefaultUnpack), rest);
    assert LoadFinish(flags) == SetUnpackAll(DefaultUnpack) + rest;
  }

  /** What `load` does to the GL pipeline, from any starting state: the image
      upload runs with the new texture bound, byte alignment and row length
      equal to the width; the four parameters and the mipmap generation (made
      exactly when GENERATE_MIPMAPS is set) apply to the new texture;
      afterwards the unpack state is GL's default and no texture is bound. */
  lemma LoadProtocol(s: GlState, last: nat, handle: int, w: int, h: int, pixelType: PixelType, flags: ImageFlags)
    ensures var t := Load(last, handle, w, h, pixelType, flags).2;
      var e := Effects(s, t);
      && Run(s, t).unpack == DefaultUnpack
      && Run(s, t).texture == 0
      && |e| == (if flags.generateMipmaps then 6 else 5)
      && (forall k :: 0 <= k < |e| ==> e[k].state.texture == handle)
      && e[0].cmd == TexImage2D(FormatFor(pixelType), w, h)
      && e[0].state.unpack == Unpack(1, w, 0, 0)
      && e[1].cmd == TexParameter(MinFilter(MinFilterFor(flags)))
      && e[2].cmd == TexParameter(MagFilter(MagFilterFor(flags)))
      && e[3].cmd == TexParameter(WrapS(WrapSFor(flags)))
      && e[4].cmd == TexParameter(WrapT(WrapTFor(flags)))
      && (flags.generateMipmaps ==> e[5].cmd == GenerateMipmap)
  {
    var setup := LoadSetup(handle, w, h, pixelType, flags);
    LoadSetupRuns(s, handle, w, h, pixelType, flags);
    LoadFinishRuns(Run(s, setup), flags);
    RunAppend(s, setup, LoadFinish(flags));
  }

  /** The four texture-parameter commands change no tracked state and each is
      an effect under the state they start in. */
  lemma DrawlessParams(s: GlState, params: seq<Cmd>)
    requires |params| == 4
    requires forall k :: 0 <= k < 4 ==> params[k].TexParameter?
    ensures Run(s, params) == s
    ensures Effects(s, params) == [Effect(s, params[0]), Effect(s, params[1]), Effect(s, params[2]), Effect(s, params[3])]
  {
    RunOne(s, params[3]);
    RunCons(s, params[2], [params[3]]);
    RunCons(s, params[1], [params[2]] + [params[3]]);
    RunCons(s, params[0], [params[1]] + ([params[2]] + [params[3]]));
    assert params == [params[0]] + ([params[1]] + ([params[2]] + [params[3]]));
  }

  /** `fromHandle`: wraps an existing GL texture. The object is typed RGBA and
      no GL call is made; ownership follows the NODELETE flag. */
  function FromHandle(last: nat, handle: int, w: int, h: int, flags: ImageFlags): (r: (Texture, nat))
    ensures r.0.id == NewId(last) && r.1 == r.0.id
    ensures r.0.handle == handle && r.0.width == w && r.0.height == h && r.0.flags == flags
    ensures r.0.pixelType == TextureRgba
  {
    var tex := Texture(NewId(last), handle, w, h, TextureRgba, flags);
    (tex, tex.id)
  }

  /** `update` up to and including the sub-image upload. */
  function UpdateUpload(tex: Texture, x: int, y: int, w: int, h: int): seq<Cmd> {
    [BindTexture(tex.handle)]
    + SetUnpackAll(Unpack(1, tex.width, x, y))
    + [TexSubImage2D(FormatFor(tex.pixelType), x, y, w, h)]
  }

  /** `update`: uploads the sub-rectangle (x, y, w, h) of a full-width source
      image, then puts the unpack state back to GL's defaults and unbinds. */
  function Update(tex: Texture, x: int, y: int, w: int, h: int): (t: seq<Cmd>)
    ensures |t| > 0 && t[0] == BindTexture(tex.handle) && t[|t| - 1] == BindTexture(0)
  {
    UpdateUpload(tex, x, y, w, h) + SetUnpackAll(DefaultUnpack) + [BindTexture(0)]
  }

  lemma UpdateUploadRuns(s: GlState, tex: Texture, x: int, y: int, w: int, h: int)
    ensures var s2 := s.(texture := tex.handle, unpack := Unpack(1, tex.width, x, y));
      && Run(s, UpdateUpload(tex, x, y, w, h)) == s2
      && Effects(s, UpdateUpload(tex, x, y, w, h)) == [Effect(s2, TexSubImage2D(FormatFor(tex.pixelType), x, y, w, h))]
  {
    var head := [BindTexture(tex.handle)];
    var up := SetUnpackAll(Unpack(1, tex.width, x, y));
    var img := [TexSubImage2D(FormatFor(tex.pixelType), x, y, w, h)];
    var s1 := s.(texture := tex.handle);
    var s2 := s1.(unpack := Unpack(1, tex.width, x, y));
    assert Run(s, head + up) == s2 && Effects(s, head + up) == [] by {
      RunOne(s, head[0]);
      SetUnpackAllRuns(s1, Unpack(1, tex.width, x, y));
      RunAppend(s, head, up);
    }
    RunOne(s2, img[0]);
    RunAppend(s, head + up, img);
  }

  lemma UpdateFinishRuns(s: GlState)
    ensures Run(s, SetUnpackAll(DefaultUnpack) + [BindTexture(0)]) == s.(unpack := DefaultUnpack, texture := 0)
    ensures Effects(s, SetUnpackAll(DefaultUnpack) + [BindTexture(0)]) == []
  {
    SetUnpackAllRuns(s, DefaultUnpack);
    RunOne(s.(unpack := DefaultUnpack), BindTexture(0));
    RunAppend(s, SetUnpackAll(DefaultUnpack), [BindTexture(0)]);
  }

  /** From any starting state, `update` performs exactly one upload, into this
      texture, reading rows of the texture's width starting at column x and
      row y; afterwards the unpack state is GL's default and nothing is bound. */
  lemma UpdateProtocol(s: GlState, tex: Texture, x: int, y: int, w: int, h: int)
    ensures var t := Update(tex, x, y, w, h);
      var e := Effects(s, t);
      && Run(s, t).unpack == DefaultUnpack
      && Run(s, t).texture == 0
      && |e| == 1
      && e[0].cmd == TexSubImage2D(FormatFor(tex.pixelType), x, y, w, h)
      && e[0].state.texture == tex.handle
      && e[0].state.unpack == Unpack(1, tex.width, x, y)
  {
    var up := UpdateUpload(tex, x, y, w, h);
    UpdateUploadRuns(s, tex, x, y, w, h);
    UpdateFinishRuns(Run(s, up));
    RunAppend(s, up, SetUnpackAll(DefaultUnpack) + [BindTexture(0)]);
    assert Update(tex, x, y, w, h) == up + (SetUnpackAll(DefaultUnpack) + [BindTexture(0)]);
  }

  /** The destructor: deletes the GL texture only when there is one and the
      backend owns it. */
  function Destroy(tex: Texture): (t: seq<Cmd>)
    ensures |t| <= 1
    ensures |t| == 1 <==> tex.handle != 0 && !tex.flags.noDelete
    ensures forall c :: c in t ==> c == Gl(DeleteTexture(tex.handle))
  {
    if tex.handle != 0 && !tex.flags.noDelete then [Gl(DeleteTexture(tex.handle))] else []
  }

  /** A borrowed texture (NODELETE) is never deleted; a loaded texture with a
      real GL name and no NODELETE flag deletes exactly that name. */
  lemma DestroyOwnership(last: nat, handle: int, w: int, h: int, pixelType: PixelType, flags: ImageFlags)
    ensures flags.noDelete ==> Destroy(FromHandle(last, handle, w, h, flags).0) == []
    ensures handle != 0 && !flags.noDelete ==>
      Destroy(Load(last, handle, w, h, pixelType, flags).0) == [Gl(DeleteTexture(handle))]
  {
  }
}
