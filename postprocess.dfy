/**
 * PostProcess and PostProcessManager: full-screen effects with a
 * window-sized offscreen target each, rendered into before the scene is
 * resolved to the back buffer through the effect's pixel shader.
 */
module PostProcessing {
  import opened Wrappers
  import opened Maths
  import opened Gpu

  /** The offscreen target of an effect: window-sized, RGBA8, bindable as render target and shader resource. */
  function TargetDesc(width: nat, height: nat): TextureDesc {
    TextureDesc(width, height, R8G8B8A8Unorm, BindRenderTargetAndShaderResource)
  }

  /** The sampler the manager creates: clamp addressing on all three axes, trilinear filtering. */
  const ClampSamplerDesc := SamplerDesc(AddressClamp, MinMagMipLinear)

  /** PostProcess::PreRender: clear the effect's target, then render into it with the main depth buffer. */
  function PreRenderCommands(rtv: Rtv, background: Vec4, depthBuffer: Dsv): seq<Cmd> {
    [ClearRenderTargetView(rtv, background), OMSetRenderTargets(Some(rtv), Some(depthBuffer))]
  }

  /**
   * PostProcess::PostRender: back buffer without depth, both shaders, the
   * effect's pixels and the clamp sampler, one triangle of three vertices.
   */
  function PostRenderCommands(backBuffer: Rtv, vs: VertexShader, ps: PixelShader, srv: Srv, sampler: Sampler): seq<Cmd> {
    [ OMSetRenderTargets(Some(backBuffer), None),
      VSSetShader(vs),
      PSSetShader(Some(ps)),
      SetShaderResourceView(ps, "Pixels", srv),
      SetSamplerState(ps, "ClampSampler", sampler),
      Draw(3, 0) ]
  }

  /** PreRender leaves the effect's target and the main depth buffer bound and nothing else changed. */
  lemma PreRenderEffect(b: Bound, rtv: Rtv, background: Vec4, depthBuffer: Dsv)
    ensures ApplyAll(b, PreRenderCommands(rtv, background, depthBuffer))
         == b.(renderTarget := Some(rtv), depthTarget := Some(depthBuffer))
  {
    var cs := PreRenderCommands(rtv, background, depthBuffer);
    assert cs[1..][1..] == [];
    calc {
      ApplyAll(b, cs);
      ApplyAll(Apply(b, cs[0]), cs[1..]);
      ApplyAll(Apply(Apply(b, cs[0]), cs[1]), []);
    }
  }

  /** PostRender leaves the back buffer bound with no depth, and both shaders of the effect set. */
  lemma PostRenderEffect(b: Bound, backBuffer: Rtv, vs: VertexShader, ps: PixelShader, srv: Srv, sampler: Sampler)
    ensures ApplyAll(b, PostRenderCommands(backBuffer, vs, ps, srv, sampler))
         == b.(renderTarget := Some(backBuffer), depthTarget := None,
               vertexShader := Some(vs), pixelShader := Some(ps))
  {
    var cs := PostRenderCommands(backBuffer, vs, ps, srv, sampler);
    var b1 := Apply(b, cs[0]);
    var b2 := Apply(b1, cs[1]);
    var b3 := Apply(b2, cs[2]);
    assert cs[3..] == [cs[3], cs[4], cs[5]];
    calc {
      ApplyAll(b, cs);
      ApplyAll(b1, cs[1..]);
      { assert cs[1..][1..] == cs[2..]; }
      ApplyAll(b2, cs[2..]);
      { assert cs[2..][1..] == cs[3..]; }
      ApplyAll(b3, cs[3..]);
      { KeepsRest(b3, cs[3..]); }
      b3;
    }
  }

  /** Commands that are neither pipeline bindings nor buffer mapping leave the bound state as it was. */
  lemma {:induction false} KeepsRest(b: Bound, cs: seq<Cmd>)
    requires forall i :: 0 <= i < |cs| ==> cs[i].SetShaderResourceView? || cs[i].SetSamplerState? || cs[i].Draw?
    ensures ApplyAll(b, cs) == b
    decreases |cs|
  {
    if cs != [] {
      KeepsRest(Apply(b, cs[0]), cs[1..]);
    }
  }

  class PostProcess {
    const pixelShader: PixelShader
    ghost const texture: Texture
    ghost const width: nat
    ghost const height: nat
    const rtv: Rtv
    const srv: Srv

    /**
     * Keeps the pixel shader and creates a window-sized texture with a
     * render target view of its format and a default shader resource view.
     */
    constructor (ps: PixelShader, g: Graphics)
      requires g.Valid()
      modifies g`bound, g`trace, g`nextId
      ensures g.Valid() && g.bound == old(g.bound) && g.nextId == old(g.nextId) + 3
      ensures pixelShader == ps && width == g.windowWidth && height == g.windowHeight
      ensures texture == Texture(old(g.nextId)) && rtv == Rtv(old(g.nextId) + 1) && srv == Srv(old(g.nextId) + 2)
      ensures g.trace == old(g.trace) + CreationCommands(this)
    {
      pixelShader := ps;
      width, height := g.windowWidth, g.windowHeight;
      var t := g.NewId();
      g.Issue(CreateTexture2D(Texture(t), TargetDesc(g.windowWidth, g.windowHeight)));
      var r := g.NewId();
      g.Issue(CreateRenderTargetView(Rtv(r), Texture(t), R8G8B8A8Unorm));
      var s := g.NewId();
      g.Issue(CreateShaderResourceView(Srv(s), Texture(t), None));
      texture, rtv, srv := Texture(t), Rtv(r), Srv(s);
    }

    /** The render target view the constructor created over its own texture. */
    function GetRTV(): (r: Rtv)
      ensures CreationCommands(this)[1] == CreateRenderTargetView(r, texture, R8G8B8A8Unorm)
    { rtv }

    /** The shader resource view the constructor created over the same texture. */
    function GetSRV(): (s: Srv)
      ensures CreationCommands(this)[2] == CreateShaderResourceView(s, texture, None)
    { srv }

    /** The pixel shader given to the constructor, the one PostRender activates. */
    function GetPixelShader(): (ps: PixelShader)
      ensures ps == pixelShader
    { pixelShader }

    method PreRender(background: Vec4, g: Graphics)
      requires g.Valid()
      modifies g`bound, g`trace
      ensures g.Valid()
      ensures g.trace == old(g.trace) + PreRenderCommands(rtv, background, g.depthBuffer)
    {
      g.Issue(ClearRenderTargetView(rtv, background));
      g.Issue(OMSetRenderTargets(Some(rtv), Some(g.depthBuffer)));
    }

    method PostRender(vs: VertexShader, sampler: Sampler, g: Graphics)
      requires g.Valid()
      modifies g`bound, g`trace
      ensures g.Valid()
      ensures g.trace == old(g.trace) + PostRenderCommands(g.backBuffer, vs, pixelShader, srv, sampler)
    {
      g.Issue(OMSetRenderTargets(Some(g.backBuffer), None));
      g.Issue(VSSetShader(vs));
      g.Issue(PSSetShader(Some(pixelShader)));
      g.Issue(SetShaderResourceView(pixelShader, "Pixels", srv));
      g.Issue(SetSamplerState(pixelShader, "ClampSampler", sampler));
      g.Issue(Draw(3, 0));
    }

    /**
     * `delete`: the implicit destructor releases the members in reverse
     * order of declaration, so the SRV before the RTV.
     */
    method Delete(g: Graphics)
      requires g.Valid()
      modifies g`bound, g`trace
      ensures g.Valid() && g.bound == old(g.bound)
      ensures g.trace == old(g.trace) + ReleaseCommands(this)
    {
      g.Issue(ReleaseShaderResourceView(srv));
      g.Issue(ReleaseRenderTargetView(rtv));
    }
  }

  /** What constructing an effect issues. */
  ghost function CreationCommands(p: PostProcess): seq<Cmd> {
    [ CreateTexture2D(p.texture, TargetDesc(p.width, p.height)),
      CreateRenderTargetView(p.rtv, p.texture, R8G8B8A8Unorm),
      CreateShaderResourceView(p.srv, p.texture, None) ]
  }

  /** What deleting an effect issues. */
  function ReleaseCommands(p: PostProcess): seq<Cmd> {
    [ReleaseShaderResourceView(p.srv), ReleaseRenderTargetView(p.rtv)]
  }

  predicate IsRelease(c: Cmd) {
    c.ReleaseRenderTargetView? || c.ReleaseShaderResourceView?
  }

  /** Constructing each effect of a list, in order. */
  ghost function AllCreations(effects: seq<PostProcess>): seq<Cmd>
    decreases |effects|
  {
    if effects == [] then [] else AllCreations(effects[..|effects| - 1]) + CreationCommands(effects[|effects| - 1])
  }

  /** Deleting each effect of a list, in order. */
  function AllReleases(effects: seq<PostProcess>): seq<Cmd>
    decreases |effects|
  {
    if effects == [] then [] else AllReleases(effects[..|effects| - 1]) + ReleaseCommands(effects[|effects| - 1])
  }

  /** Every effect's PreRender, in list order. */
  function AllPreRenders(effects: seq<PostProcess>, background: Vec4, depthBuffer: Dsv): seq<Cmd>
    decreases |effects|
  {
    if effects == [] then []
    else AllPreRenders(effects[..|effects| - 1], background, depthBuffer)
         + PreRenderCommands(effects[|effects| - 1].rtv, background, depthBuffer)
  }

  /** Every effect's PostRender, in list order, all with the manager's vertex shader and sampler. */
  function AllPostRenders(effects: seq<PostProcess>, backBuffer: Rtv, vs: VertexShader, sampler: Sampler): seq<Cmd>
    decreases |effects|
  {
    if effects == [] then []
    else
      var last := effects[|effects| - 1];
      AllPostRenders(effects[..|effects| - 1], backBuffer, vs, sampler)
      + PostRenderCommands(backBuffer, vs, last.pixelShader, last.srv, sampler)
  }

  /**
   * The manager's PreRender changes nothing with no effects; otherwise it
   * leaves the last effect's target and the main depth buffer bound and
   * nothing else changed.
   */
  lemma {:induction false} PreRendersBindLast(b: Bound, effects: seq<PostProcess>, background: Vec4, depthBuffer: Dsv)
    ensures effects == [] ==> ApplyAll(b, AllPreRenders(effects, background, depthBuffer)) == b
    ensures effects != [] ==>
      ApplyAll(b, AllPreRenders(effects, background, depthBuffer))
      == b.(renderTarget := Some(effects[|effects| - 1].rtv), depthTarget := Some(depthBuffer))
    decreases |effects|
  {
    if effects != [] {
      var prefix := effects[..|effects| - 1];
      var last := effects[|effects| - 1];
      PreRendersBindLast(b, prefix, background, depthBuffer);
      ApplyAllAppend(b, AllPreRenders(prefix, background, depthBuffer), PreRenderCommands(last.rtv, background, depthBuffer));
      PreRenderEffect(ApplyAll(b, AllPreRenders(prefix, background, depthBuffer)), last.rtv, background, depthBuffer);
    }
  }

  /**
   * After a non-empty PostRender the back buffer is bound without depth,
   * with the manager's vertex shader and the last effect's pixel shader.
   */
  lemma {:induction false} PostRendersEndOnBackBuffer(b: Bound, effects: seq<PostProcess>, backBuffer: Rtv,
                                                      vs: VertexShader, sampler: Sampler)
    ensures effects == [] ==> ApplyAll(b, AllPostRenders(effects, backBuffer, vs, sampler)) == b
    ensures effects != [] ==>
      ApplyAll(b, AllPostRenders(effects, backBuffer, vs, sampler))
      == b.(renderTarget := Some(backBuffer), depthTarget := None, vertexShader := Some(vs),
            pixelShader := Some(effects[|effects| - 1].pixelShader))
    decreases |effects|
  {
    if effects != [] {
      var prefix := effects[..|effects| - 1];
      var last := effects[|effects| - 1];
      PostRendersEndOnBackBuffer(b, prefix, backBuffer, vs, sampler);
      ApplyAllAppend(b, AllPostRenders(prefix, backBuffer, vs, sampler),
                     PostRenderCommands(backBuffer, vs, last.pixelShader, last.srv, sampler));
      PostRenderEffect(ApplyAll(b, AllPostRenders(prefix, backBuffer, vs, sampler)),
                       backBuffer, vs, last.pixelShader, last.srv, sampler);
    }
  }

  /** PostRender draws exactly once per effect. */
  lemma {:induction false} OneDrawPerEffect(effects: seq<PostProcess>, backBuffer: Rtv, vs: VertexShader, sampler: Sampler)
    ensures Count(AllPostRenders(effects, backBuffer, vs, sampler), IsDraw) == |effects|
    decreases |effects|
  {
    if effects != [] {
      var prefix := effects[..|effects| - 1];
      var last := effects[|effects| - 1];
      var one := PostRenderCommands(backBuffer, vs, last.pixelShader, last.srv, sampler);
      OneDrawPerEffect(prefix, backBuffer, vs, sampler);
      CountAppend(AllPostRenders(prefix, backBuffer, vs, sampler), one, IsDraw);
      PostRenderDrawsOnce(backBuffer, vs, last.pixelShader, last.srv, sampler);
    }
  }

  lemma PostRenderDrawsOnce(backBuffer: Rtv, vs: VertexShader, ps: PixelShader, srv: Srv, sampler: Sampler)
    ensures Count(PostRenderCommands(backBuffer, vs, ps, srv, sampler), IsDraw) == 1
  {
    var cs := PostRenderCommands(backBuffer, vs, ps, srv, sampler);
    assert cs[5..][1..] == [];
    assert Count(cs[5..], IsDraw) == 1;
    assert cs[4..][1..] == cs[5..];
    assert Count(cs[4..], IsDraw) == 1;
    assert cs[3..][1..] == cs[4..];
    assert Count(cs[3..], IsDraw) == 1;
    assert cs[2..][1..] == cs[3..];
    assert Count(cs[2..], IsDraw) == 1;
    assert cs[1..][1..] == cs[2..];
    assert Count(cs[1..], IsDraw) == 1;
  }

  /** Rebuilding issues only creations, and deleting only releases. */
  lemma {:induction false} CreationsAndReleases(rebuilt: seq<PostProcess>, previous: seq<PostProcess>)
    ensures forall i :: 0 <= i < |AllCreations(rebuilt)| ==> IsCreation(AllCreations(rebuilt)[i])
    ensures forall i :: 0 <= i < |AllReleases(previous)| ==> IsRelease(AllReleases(previous)[i])
    decreases |rebuilt| + |previous|
  {
    if rebuilt != [] {
      CreationsAndReleases(rebuilt[..|rebuilt| - 1], previous);
    }
    if previous != [] {
      CreationsAndReleases(rebuilt, previous[..|previous| - 1]);
    }
  }

  /** In the rebuild, no release comes before a creation: every replacement exists before any previous effect goes. */
  lemma ReplacementsBeforeReleases(rebuilt: seq<PostProcess>, previous: seq<PostProcess>)
    ensures var cs := AllCreations(rebuilt) + AllReleases(previous);
      forall i, j :: 0 <= i < j < |cs| ==> !(IsRelease(cs[i]) && IsCreation(cs[j]))
  {
    CreationsAndReleases(rebuilt, previous);
    var cs := AllCreations(rebuilt) + AllReleases(previous);
    forall i, j | 0 <= i < j < |cs|
      ensures !(IsRelease(cs[i]) && IsCreation(cs[j]))
    {
      if i < |AllCreations(rebuilt)| {
        assert IsCreation(cs[i]);
      } else {
        assert IsRelease(cs[j]);
      }
    }
  }

  class PostProcessManager {
    var effects: seq<PostProcess>
    const sampler: Sampler
    const vertexShader: VertexShader

    /**
     * Creates the clamp sampler. The vertex shader loaded from its compiled
     * file is modelled as a fresh handle.
     */
    constructor (g: Graphics)
      requires g.Valid()
      modifies g`bound, g`trace, g`nextId
      ensures g.Valid() && g.bound == old(g.bound) && g.nextId == old(g.nextId) + 2
      ensures effects == [] && sampler == Sampler(old(g.nextId)) && vertexShader == VertexShader(old(g.nextId) + 1)
      ensures g.trace == old(g.trace) + [CreateSamplerState(sampler, ClampSamplerDesc)]
    {
      var s := g.NewId();
      g.Issue(CreateSamplerState(Sampler(s), ClampSamplerDesc));
      var v := g.NewId();
      sampler, vertexShader := Sampler(s), VertexShader(v);
      effects := [];
    }

    /** The destructor: deletes every entry, in order. */
    method Destroy(g: Graphics)
      requires g.Valid()
      modifies g`bound, g`trace
      ensures g.Valid() && g.bound == old(g.bound)
      ensures g.trace == old(g.trace) + AllReleases(effects)
    {
      var i := 0;
      while i < |effects|
        invariant 0 <= i <= |effects|
        invariant g.Valid() && g.bound == old(g.bound)
        invariant g.trace == old(g.trace) + AllReleases(effects[..i])
      {
        effects[i].Delete(g);
        assert effects[..i + 1][..i] == effects[..i];
        i := i + 1;
      }
      assert effects[..i] == effects;
    }

    method AddPostProcess(p: PostProcess)
      modifies this`effects
      ensures effects == old(effects) + [p]
    {
      effects := effects + [p];
    }

    /** Empties the list; the entries are not deleted. */
    method ClearPostProcesses()
      modifies this`effects
      ensures effects == []
    {
      effects := [];
    }

    method PreRender(background: Vec4, g: Graphics)
      requires g.Valid()
      modifies g`bound, g`trace
      ensures g.Valid()
      ensures g.trace == old(g.trace) + AllPreRenders(effects, background, g.depthBuffer)
      ensures g.bound == ApplyAll(old(g.bound), AllPreRenders(effects, background, g.depthBuffer))
    {
      var i := 0;
      while i < |effects|
        invariant 0 <= i <= |effects|
        invariant g.Valid()
        invariant g.trace == old(g.trace) + AllPreRenders(effects[..i], background, g.depthBuffer)
      {
        effects[i].PreRender(background, g);
        assert effects[..i + 1][..i] == effects[..i];
        i := i + 1;
      }
      assert effects[..i] == effects;
      ApplyAllAppend(g.initial, old(g.trace), AllPreRenders(effects, background, g.depthBuffer));
    }

    method PostRender(g: Graphics)
      requires g.Valid()
      modifies g`bound, g`trace
      ensures g.Valid()
      ensures g.trace == old(g.trace) + AllPostRenders(effects, g.backBuffer, vertexShader, sampler)
      ensures g.bound == ApplyAll(old(g.bound), AllPostRenders(effects, g.backBuffer, vertexShader, sampler))
    {
      var i := 0;
      while i < |effects|
        invariant 0 <= i <= |effects|
        invariant g.Valid()
        invariant g.trace == old(g.trace) + AllPostRenders(effects[..i], g.backBuffer, vertexShader, sampler)
      {
        effects[i].PostRender(vertexShader, sampler, g);
        assert effects[..i + 1][..i] == effects[..i];
        i := i + 1;
      }
      assert effects[..i] == effects;
      ApplyAllAppend(g.initial, old(g.trace), AllPostRenders(effects, g.backBuffer, vertexShader, sampler));
    }

    /**
     * Rebuilds every effect at the current window size with the same pixel
     * shader, then deletes the old ones, then replaces the list.
     */
    method OnResize(g: Graphics)
      requires g.Valid()
      modifies this`effects, g`bound, g`trace, g`nextId
      ensures g.Valid() && g.bound == old(g.bound)
      ensures |effects| == |old(effects)|
      ensures forall i :: 0 <= i < |effects| ==>
        fresh(effects[i]) && effects[i].pixelShader == old(effects)[i].pixelShader
        && effects[i].width == g.windowWidth && effects[i].height == g.windowHeight
      ensures g.trace == old(g.trace) + AllCreations(effects) + AllReleases(old(effects))
    {
      var rebuilt: seq<PostProcess> := [];
      var i := 0;
      while i < |effects|
        invariant 0 <= i <= |effects| && |rebuilt| == i
        invariant effects == old(effects)
        invariant g.Valid() && g.bound == old(g.bound)
        invariant forall j :: 0 <= j < i ==>
          fresh(rebuilt[j]) && rebuilt[j].pixelShader == effects[j].pixelShader
          && rebuilt[j].width == g.windowWidth && rebuilt[j].height == g.windowHeight
        invariant g.trace == old(g.trace) + AllCreations(rebuilt)
      {
        var p := new PostProcess(effects[i].GetPixelShader(), g);
        assert (rebuilt + [p])[..i] == rebuilt;
        rebuilt := rebuilt + [p];
        i := i + 1;
      }
      ghost var created := g.trace;
      i := 0;
      while i < |effects|
        invariant 0 <= i <= |effects|
        invariant effects == old(effects)
        invariant g.Valid() && g.bound == old(g.bound)
        invariant g.trace == created + AllReleases(effects[..i])
      {
        effects[i].Delete(g);
        assert effects[..i + 1][..i] == effects[..i];
        i := i + 1;
      }
      assert effects[..i] == effects;
      effects := rebuilt;
    }
  }
}
