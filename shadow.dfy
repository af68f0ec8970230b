/**
 * ShadowManager: a square depth texture seen from a directional light, a
 * depth-only pass that draws every entity into it, and the restoration of
 * the window's viewport and render targets afterwards.
 */
module Shadows {
  import opened Wrappers
  import opened Maths
  import opened Gpu
  import opened Transforms
  import opened Meshes
  import opened Entities

  /** SHADOW_MAP_RESOLUTION. */
  const ShadowMapResolution: nat := 1024

  /** How far the light's eye backs up from the origin along its direction. */
  const LightBackup: real := -20.0

  /** Width and height of the light's orthographic volume. */
  const ProjectionSize: real := 15.0

  const ShadowMapDesc := TextureDesc(ShadowMapResolution, ShadowMapResolution, R32Typeless,
                                     BindDepthStencilAndShaderResource)

  /** The light's view: from 20 units behind the origin, along the normalised direction, world up. */
  function LightView(direction: Vec3): Matrix {
    var d := Normalize(direction);
    LookTo(Times(d, LightBackup), d, WorldUp)
  }

  const LightProjection := Orthographic(ProjectionSize, ProjectionSize, 1.0, 100.0)

  /** A zero-initialised D3D11_VIEWPORT with the given size and MaxDepth 1. */
  function SizedViewport(width: real, height: real): Viewport {
    Viewport(0.0, 0.0, width, height, 0.0, 1.0)
  }

  const ShadowViewport := SizedViewport(ShadowMapResolution as real, ShadowMapResolution as real)

  /** One entity as the shadow pass sees it: its world matrix and its mesh. */
  datatype Pass = Pass(world: Matrix, mesh: MeshState)

  /** Clear the shadow map, bind it alone, switch pixel shading off and set its viewport. */
  function TargetCommands(dsv: Dsv): seq<Cmd> {
    [ ClearDepthStencilView(dsv, 1.0),
      OMSetRenderTargets(None, Some(dsv)),
      PSSetShader(None),
      RSSetViewport(ShadowViewport) ]
  }

  /** Bind the shadow vertex shader and give it the light's matrices. */
  function ShaderCommands(vs: VertexShader, view: Matrix, projection: Matrix): seq<Cmd> {
    [ VSSetShader(vs),
      SetMatrix4x4(vs, "view", view),
      SetMatrix4x4(vs, "projection", projection) ]
  }

  function SetupCommands(dsv: Dsv, vs: VertexShader, view: Matrix, projection: Matrix): seq<Cmd> {
    TargetCommands(dsv) + ShaderCommands(vs, view, projection)
  }

  /** One entity: its world matrix, the upload, then its mesh. */
  function PassCommands(vs: VertexShader, p: Pass): seq<Cmd> {
    [SetMatrix4x4(vs, "world", p.world), CopyAllBufferData(vs)] + DrawCommands(p.mesh)
  }

  /** Every entity, in order. */
  function AllPassCommands(vs: VertexShader, passes: seq<Pass>): seq<Cmd>
    decreases |passes|
  {
    if passes == [] then []
    else AllPassCommands(vs, passes[..|passes| - 1]) + PassCommands(vs, passes[|passes| - 1])
  }

  /** Back to the window's viewport and the back buffer with the main depth buffer. */
  function RestoreCommands(width: nat, height: nat, backBuffer: Rtv, depthBuffer: Dsv): seq<Cmd> {
    [ RSSetViewport(SizedViewport(width as real, height as real)),
      OMSetRenderTargets(Some(backBuffer), Some(depthBuffer)) ]
  }

  function ShadowPassCommands(dsv: Dsv, vs: VertexShader, view: Matrix, projection: Matrix, passes: seq<Pass>,
                              width: nat, height: nat, backBuffer: Rtv, depthBuffer: Dsv): seq<Cmd> {
    SetupCommands(dsv, vs, view, projection) + AllPassCommands(vs, passes) + RestoreCommands(width, height, backBuffer, depthBuffer)
  }

  /**
   * A command that touches neither the output merger, the viewport nor a
   * shader stage, and sets no matrix but the world matrix.
   */
  predicate Inert(c: Cmd) {
    !c.OMSetRenderTargets? && !c.RSSetViewport? && !c.PSSetShader? && !c.VSSetShader?
    && (c.SetMatrix4x4? ==> c.matrixName == "world")
  }

  /**
   * Drawing the entities never rebinds targets, viewport or shaders, and
   * leaves the light's view and projection as the setup wrote them.
   */
  lemma {:induction false} PassesAreInert(vs: VertexShader, passes: seq<Pass>)
    ensures forall i :: 0 <= i < |AllPassCommands(vs, passes)| ==> Inert(AllPassCommands(vs, passes)[i])
    decreases |passes|
  {
    if passes != [] {
      PassesAreInert(vs, passes[..|passes| - 1]);
    }
  }

  /** Each entity's mesh is drawn exactly once. */
  lemma {:induction false} OneMeshDrawPerEntity(vs: VertexShader, passes: seq<Pass>)
    ensures Count(AllPassCommands(vs, passes), IsIndexedDraw) == |passes|
    decreases |passes|
  {
    if passes != [] {
      var prefix := passes[..|passes| - 1];
      var one := PassCommands(vs, passes[|passes| - 1]);
      OneMeshDrawPerEntity(vs, prefix);
      CountAppend(AllPassCommands(vs, prefix), one, IsIndexedDraw);
      assert one[4..][1..] == [];
      assert Count(one[4..], IsIndexedDraw) == 1;
      assert one[3..][1..] == one[4..];
      assert Count(one[3..], IsIndexedDraw) == 1;
      assert one[2..][1..] == one[3..];
      assert Count(one[2..], IsIndexedDraw) == 1;
      assert one[1..][1..] == one[2..];
      assert Count(one[1..], IsIndexedDraw) == 1;
    }
  }

  /** The state the setup leaves: only the shadow map bound, no pixel shader, the shadow viewport and shader. */
  lemma SetupEffect(b: Bound, dsv: Dsv, vs: VertexShader, view: Matrix, projection: Matrix)
    ensures ApplyAll(b, SetupCommands(dsv, vs, view, projection))
         == b.(renderTarget := None, depthTarget := Some(dsv), pixelShader := None,
               viewport := ShadowViewport, vertexShader := Some(vs))
  {
    var cs := SetupCommands(dsv, vs, view, projection);
    var b1 := Apply(b, cs[0]);
    var b2 := Apply(b1, cs[1]);
    var b3 := Apply(b2, cs[2]);
    var b4 := Apply(b3, cs[3]);
    var b5 := Apply(b4, cs[4]);
    var b6 := Apply(b5, cs[5]);
    var b7 := Apply(b6, cs[6]);
    assert cs[7..] == [];
    calc {
      ApplyAll(b, cs);
      ApplyAll(b1, cs[1..]);
      { assert cs[1..][1..] == cs[2..]; }
      ApplyAll(b2, cs[2..]);
      { assert cs[2..][1..] == cs[3..]; }
      ApplyAll(b3, cs[3..]);
      { assert cs[3..][1..] == cs[4..]; }
      ApplyAll(b4, cs[4..]);
      { assert cs[4..][1..] == cs[5..]; }
      ApplyAll(b5, cs[5..]);
      { assert cs[5..][1..] == cs[6..]; }
      ApplyAll(b6, cs[6..]);
      { assert cs[6..][1..] == cs[7..]; }
      ApplyAll(b7, cs[7..]);
    }
  }

  /** The state the restoration leaves: the window viewport, the back buffer and main depth buffer. */
  lemma RestoreEffect(b: Bound, width: nat, height: nat, backBuffer: Rtv, depthBuffer: Dsv)
    ensures ApplyAll(b, RestoreCommands(width, height, backBuffer, depthBuffer))
         == b.(viewport := SizedViewport(width as real, height as real),
               renderTarget := Some(backBuffer), depthTarget := Some(depthBuffer))
  {
    var cs := RestoreCommands(width, height, backBuffer, depthBuffer);
    assert cs[1..][1..] == [];
    calc {
      ApplyAll(b, cs);
      ApplyAll(Apply(b, cs[0]), cs[1..]);
      ApplyAll(Apply(Apply(b, cs[0]), cs[1]), []);
    }
  }

  /**
   * Whatever was bound before and however many entities are drawn, the
   * shadow pass ends with the window's viewport and targets bound, the
   * shadow vertex shader still set and pixel shading off.
   */
  lemma ShadowPassRestores(b: Bound, dsv: Dsv, vs: VertexShader, view: Matrix, projection: Matrix,
                           passes: seq<Pass>, width: nat, height: nat, backBuffer: Rtv, depthBuffer: Dsv)
    ensures var after := ApplyAll(b, ShadowPassCommands(dsv, vs, view, projection, passes,
                                                        width, height, backBuffer, depthBuffer));
      after.renderTarget == Some(backBuffer) && after.depthTarget == Some(depthBuffer)
      && after.viewport == SizedViewport(width as real, height as real)
      && after.vertexShader == Some(vs) && after.pixelShader == None
  {
    var setup := SetupCommands(dsv, vs, view, projection);
    var draws := AllPassCommands(vs, passes);
    var restore := RestoreCommands(width, height, backBuffer, depthBuffer);
    ApplyAllAppend(b, setup + draws, restore);
    ApplyAllAppend(b, setup, draws);
    SetupEffect(b, dsv, vs, view, projection);
    var afterSetup := ApplyAll(b, setup);
    PassesAreInert(vs, passes);
    KeepsShaders(afterSetup, draws);
    RestoreEffect(ApplyAll(afterSetup, draws), width, height, backBuffer, depthBuffer);
  }

  /** A trace extended by the three parts of a shadow pass ends in the restored state. */
  lemma ShadowPassState(initial: Bound, before: seq<Cmd>, dsv: Dsv, vs: VertexShader, view: Matrix, projection: Matrix,
                        passes: seq<Pass>, width: nat, height: nat, backBuffer: Rtv, depthBuffer: Dsv)
    ensures var all := ShadowPassCommands(dsv, vs, view, projection, passes, width, height, backBuffer, depthBuffer);
      var after := ApplyAll(initial, before + all);
      before + SetupCommands(dsv, vs, view, projection) + AllPassCommands(vs, passes)
        + RestoreCommands(width, height, backBuffer, depthBuffer) == before + all
      && after.renderTarget == Some(backBuffer) && after.depthTarget == Some(depthBuffer)
      && after.viewport == SizedViewport(width as real, height as real)
      && after.vertexShader == Some(vs) && after.pixelShader == None
  {
    var all := ShadowPassCommands(dsv, vs, view, projection, passes, width, height, backBuffer, depthBuffer);
    ApplyAllAppend(initial, before, all);
    ShadowPassRestores(ApplyAll(initial, before), dsv, vs, view, projection, passes, width, height, backBuffer, depthBuffer);
  }

  /** One entity as the shadow pass reads it. */
  ghost function PassOf(e: Entity): Pass
    reads e.transform, e.mesh
  {
    Pass(WorldMatrixOf(e.transform.State()), e.mesh.State())
  }

  /** The entities' passes, in order, read from their transforms and meshes without changing them. */
  ghost function Passes(entities: seq<Entity>): seq<Pass>
    reads set e | e in entities :: e.transform
    reads set e | e in entities :: e.mesh
    decreases |entities|
  {
    if entities == [] then []
    else Passes(entities[..|entities| - 1]) + [PassOf(entities[|entities| - 1])]
  }

  /** The passes are the entities' own, one each, in order. */
  lemma {:induction false} PassesAreEach(entities: seq<Entity>)
    ensures |Passes(entities)| == |entities|
    ensures forall j :: 0 <= j < |entities| ==> Passes(entities)[j] == PassOf(entities[j])
    decreases |entities|
  {
    if entities != [] {
      var prefix := entities[..|entities| - 1];
      PassesAreEach(prefix);
      assert forall j :: 0 <= j < |prefix| ==> prefix[j] == entities[j];
    }
  }

  class ShadowManager {
    const vertexShader: VertexShader
    ghost const shadowTexture: Texture
    const shadowDsv: Dsv
    const shadowSrv: Srv
    const lightView: Matrix
    const lightProjection: Matrix

    /**
     * Creates the shadow map with a D32 depth view and an R32 shader view,
     * and fixes the light's matrices. The shader loaded from its compiled
     * file is modelled as a fresh handle.
     */
    constructor (lightDirection: Vec3, g: Graphics)
      requires g.Valid()
      modifies g`bound, g`trace, g`nextId
      ensures g.Valid() && g.bound == old(g.bound) && g.nextId == old(g.nextId) + 4
      ensures shadowTexture == Texture(old(g.nextId)) && shadowDsv == Dsv(old(g.nextId) + 1)
      ensures shadowSrv == Srv(old(g.nextId) + 2) && vertexShader == VertexShader(old(g.nextId) + 3)
      ensures g.trace == old(g.trace) + CreationCommands()
      ensures lightView == LightView(lightDirection) && lightProjection == LightProjection
    {
      var t := g.NewId();
      g.Issue(CreateTexture2D(Texture(t), ShadowMapDesc));
      var d := g.NewId();
      g.Issue(CreateDepthStencilView(Dsv(d), Texture(t), D32Float));
      var s := g.NewId();
      g.Issue(CreateShaderResourceView(Srv(s), Texture(t), Some(R32Float)));
      var direction := Normalize(lightDirection);
      lightView := LookTo(Times(direction, LightBackup), direction, WorldUp);
      lightProjection := Orthographic(ProjectionSize, ProjectionSize, 1.0, 100.0);
      var v := g.NewId();
      shadowTexture, shadowDsv, shadowSrv, vertexShader := Texture(t), Dsv(d), Srv(s), VertexShader(v);
    }

    /** The shader resource view the constructor created over the shadow map. */
    function GetShadowSRV(): (s: Srv)
      ensures CreationCommands()[2] == CreateShaderResourceView(s, shadowTexture, Some(R32Float))
    { shadowSrv }

    /** What the constructor issues: the shadow map, its depth view and its shader view. */
    ghost function CreationCommands(): seq<Cmd> {
      [ CreateTexture2D(shadowTexture, ShadowMapDesc),
        CreateDepthStencilView(shadowDsv, shadowTexture, D32Float),
        CreateShaderResourceView(shadowSrv, shadowTexture, Some(R32Float)) ]
    }

    method DrawSetup(g: Graphics)
      requires g.Valid()
      modifies g`bound, g`trace
      ensures g.Valid()
      ensures g.trace == old(g.trace) + SetupCommands(shadowDsv, vertexShader, lightView, lightProjection)
    {
      DrawTargets(g);
      DrawShader(g);
    }

    method DrawTargets(g: Graphics)
      requires g.Valid()
      modifies g`bound, g`trace
      ensures g.Valid()
      ensures g.trace == old(g.trace) + TargetCommands(shadowDsv)
    {
      g.Issue(ClearDepthStencilView(shadowDsv, 1.0));
      g.Issue(OMSetRenderTargets(None, Some(shadowDsv)));
      g.Issue(PSSetShader(None));
      g.Issue(RSSetViewport(ShadowViewport));
    }

    method DrawShader(g: Graphics)
      requires g.Valid()
      modifies g`bound, g`trace
      ensures g.Valid()
      ensures g.trace == old(g.trace) + ShaderCommands(vertexShader, lightView, lightProjection)
    {
      g.Issue(VSSetShader(vertexShader));
      g.Issue(SetMatrix4x4(vertexShader, "view", lightView));
      g.Issue(SetMatrix4x4(vertexShader, "projection", lightProjection));
    }

    /**
     * Draw with the mesh taken from the entity itself. The entities are taken
     * by value, so the world matrices come from copies of their transforms
     * and the caller's entities are not changed.
     */
    method Draw(entities: seq<Entity>, g: Graphics)
      requires g.Valid()
      modifies g`bound, g`trace
      ensures g.Valid()
      ensures g.trace == old(g.trace) + ShadowPassCommands(shadowDsv, vertexShader, lightView, lightProjection,
                                                           old(Passes(entities)), g.windowWidth, g.windowHeight,
                                                           g.backBuffer, g.depthBuffer)
      ensures g.bound.renderTarget == Some(g.backBuffer) && g.bound.depthTarget == Some(g.depthBuffer)
      ensures g.bound.viewport == SizedViewport(g.windowWidth as real, g.windowHeight as real)
      ensures g.bound.vertexShader == Some(vertexShader) && g.bound.pixelShader == None
    {
      ghost var passes := Passes(entities);
      PassesAreEach(entities);
      DrawSetup(g);
      DrawEntities(entities, g, passes);
      DrawRestore(g);
      ShadowPassState(g.initial, old(g.trace), shadowDsv, vertexShader, lightView, lightProjection, passes,
                      g.windowWidth, g.windowHeight, g.backBuffer, g.depthBuffer);
    }

    /** The restoration at the end of Draw. */
    method DrawRestore(g: Graphics)
      requires g.Valid()
      modifies g`bound, g`trace
      ensures g.Valid()
      ensures g.trace == old(g.trace) + RestoreCommands(g.windowWidth, g.windowHeight, g.backBuffer, g.depthBuffer)
    {
      g.Issue(RSSetViewport(SizedViewport(g.windowWidth as real, g.windowHeight as real)));
      g.Issue(OMSetRenderTargets(Some(g.backBuffer), Some(g.depthBuffer)));
    }

    /** The entity loop of Draw. */
    method DrawEntities(entities: seq<Entity>, g: Graphics, ghost passes: seq<Pass>)
      requires g.Valid()
      requires |passes| == |entities|
      requires forall j :: 0 <= j < |entities| ==> passes[j] == PassOf(entities[j])
      modifies g`bound, g`trace
      ensures g.Valid()
      ensures g.trace == old(g.trace) + AllPassCommands(vertexShader, passes)
    {
      var i := 0;
      while i < |entities|
        invariant 0 <= i <= |entities|
        invariant g.Valid()
        invariant g.trace == old(g.trace) + AllPassCommands(vertexShader, passes[..i])
      {
        DrawOne(entities[i], g);
        assert passes[..i + 1][..i] == passes[..i];
        i := i + 1;
      }
      assert passes[..i] == passes;
    }

    /** One iteration of the entity loop, for an entity copy. */
    method DrawOne(e: Entity, g: Graphics)
      requires g.Valid()
      modifies g`bound, g`trace
      ensures g.Valid()
      ensures g.trace == old(g.trace) + PassCommands(vertexShader, PassOf(e))
    {
      var copy := new Transform.Copy(e.transform);
      var world := copy.GetWorldMatrix();
      g.Issue(SetMatrix4x4(vertexShader, "world", world));
      g.Issue(CopyAllBufferData(vertexShader));
      e.GetMesh().Draw(g);
    }

    /**
     * Draw as written: the mesh comes from Entity::GetMesh, an empty pointer,
     * so the first entity's draw dereferences null. The model stops there and
     * reports the crash; nothing after that point is issued.
     */
    method DrawAsWritten(entities: seq<Entity>, g: Graphics) returns (crashed: bool)
      requires g.Valid()
      modifies g`bound, g`trace
      ensures g.Valid()
      ensures crashed <==> |entities| > 0
      ensures !crashed ==> g.trace == old(g.trace) + ShadowPassCommands(shadowDsv, vertexShader, lightView, lightProjection,
                                                                        [], g.windowWidth, g.windowHeight,
                                                                        g.backBuffer, g.depthBuffer)
      ensures crashed ==> g.trace == old(g.trace) + SetupCommands(shadowDsv, vertexShader, lightView, lightProjection)
                                     + [ SetMatrix4x4(vertexShader, "world", WorldMatrixOf(entities[0].transform.State())),
                                         CopyAllBufferData(vertexShader) ]
    {
      DrawSetup(g);
      crashed := false;
      if |entities| > 0 {
        var e := entities[0];
        var copy := new Transform.Copy(e.transform);
        var world := copy.GetWorldMatrix();
        g.Issue(SetMatrix4x4(vertexShader, "world", world));
        g.Issue(CopyAllBufferData(vertexShader));
        var mesh := e.GetMeshAsWritten();
        crashed := mesh == null;
        return;
      }
      DrawRestore(g);
      assert [] == AllPassCommands(vertexShader, []);
    }
  }

  /** A crashed shadow pass leaves the shadow map bound, pixel shading off and the shadow viewport set. */
  lemma CrashLeavesShadowState(b: Bound, dsv: Dsv, vs: VertexShader, view: Matrix, projection: Matrix, world: Matrix)
    ensures var after := ApplyAll(b, SetupCommands(dsv, vs, view, projection)
                                     + [SetMatrix4x4(vs, "world", world), CopyAllBufferData(vs)]);
      after.renderTarget == None && after.depthTarget == Some(dsv)
      && after.viewport == ShadowViewport && after.pixelShader == None
  {
    var setup := SetupCommands(dsv, vs, view, projection);
    var tail := [SetMatrix4x4(vs, "world", world), CopyAllBufferData(vs)];
    ApplyAllAppend(b, setup, tail);
    SetupEffect(b, dsv, vs, view, projection);
    KeepsTargets(ApplyAll(b, setup), tail);
    KeepsViewport(ApplyAll(b, setup), tail);
    KeepsShaders(ApplyAll(b, setup), tail);
  }
}
