/**
 * Entity and GameEntity: a shared copy of a mesh and an own transform, drawn
 * by uploading a constant-buffer record and then drawing the mesh.
 */
module Entities {
  import opened Wrappers
  import opened Maths
  import opened Gpu
  import opened Transforms
  import opened Meshes
  import opened Cameras

  /** The colour both entity kinds upload. */
  const White := Vec4(1.0, 1.0, 1.0, 1.0)

  /** Map the constant buffer for discard-write, copy the record in, unmap it. */
  function UploadCommands(cb: Buffer, data: VertexColorWorldData): seq<Cmd> {
    [Map(cb, 0, WriteDiscard), CopyToMapped(data), Unmap(cb, 0)]
  }

  /** Entity::Draw: colour, world, the camera's view and projection, then the mesh. */
  function EntityDrawCommands(cb: Buffer, world: Matrix, view: Matrix, projection: Matrix, mesh: MeshState): seq<Cmd> {
    UploadCommands(cb, VertexColorWorldData(White, world, view, projection)) + DrawCommands(mesh)
  }

  /** GameEntity::Draw: colour and world only; the record is zero-initialised, so view and projection are zero. */
  function GameEntityDrawCommands(cb: Buffer, world: Matrix, mesh: MeshState): seq<Cmd> {
    UploadCommands(cb, VertexColorWorldData(White, world, ZeroMatrix, ZeroMatrix)) + DrawCommands(mesh)
  }

  /** An upload unmaps what it mapped: afterwards nothing is mapped, whatever was before. */
  lemma UploadLeavesNothingMapped(b: Bound, cb: Buffer, data: VertexColorWorldData)
    ensures ApplyAll(b, UploadCommands(cb, data)) == b.(mapped := None)
  {
    var cs := UploadCommands(cb, data);
    var b1 := Apply(b, cs[0]);
    var b2 := Apply(b1, cs[1]);
    assert b2.mapped == Some(cb);
    assert cs[1..][1..][1..] == [];
    calc {
      ApplyAll(b, cs);
      ApplyAll(b1, cs[1..]);
      ApplyAll(b2, cs[1..][1..]);
      ApplyAll(Apply(b2, cs[2]), []);
    }
  }

  /** An entity draw leaves the mesh's buffers bound, nothing mapped, and the rest of the pipeline as it was. */
  lemma DrawEffect(b: Bound, cb: Buffer, data: VertexColorWorldData, mesh: MeshState)
    ensures ApplyAll(b, UploadCommands(cb, data) + DrawCommands(mesh))
         == b.(mapped := None, vertexBuffer := mesh.vertexBuffer, indexBuffer := mesh.indexBuffer)
  {
    ApplyAllAppend(b, UploadCommands(cb, data), DrawCommands(mesh));
    UploadLeavesNothingMapped(b, cb, data);
    DrawBindsItsBuffers(b.(mapped := None), mesh);
  }

  class Entity {
    const mesh: Mesh
    const transform: Transform

    /** Shares a copy of the given mesh and starts from a default transform. */
    constructor (m: Mesh)
      ensures fresh(mesh) && fresh(transform)
      ensures mesh.State() == m.State() && transform.State() == Initial
    {
      mesh := new Mesh.Copy(m);
      transform := new Transform();
    }

    /** The entity's own transform (a reference: changes to it move the entity). */
    function GetTransform(): (t: Transform)
      ensures t == transform
    {
      transform
    }

    /** GetMesh as written: always an empty pointer. */
    function GetMeshAsWritten(): (m: Mesh?)
      ensures m == null
    {
      null
    }

    /** GetMesh as evidently intended: the entity's mesh. */
    function GetMesh(): (m: Mesh)
      ensures m == mesh
    {
      mesh
    }

    method Draw(cb: Buffer, camera: Camera, g: Graphics)
      requires g.Valid()
      modifies g`bound, g`trace, transform
      ensures g.Valid()
      ensures transform.State() == Step(old(transform.State()), GetWorldMatrix)
      ensures g.trace == old(g.trace) + EntityDrawCommands(cb, WorldMatrixOf(old(transform.State())),
                                                           camera.view, camera.projection, mesh.State())
      ensures g.bound == old(g.bound).(mapped := None, vertexBuffer := mesh.vertexBuffer, indexBuffer := mesh.indexBuffer)
    {
      var world := transform.GetWorldMatrix();
      var data := VertexColorWorldData(White, world, camera.GetView(), camera.GetProjection());
      g.Issue(Map(cb, 0, WriteDiscard));
      g.Issue(CopyToMapped(data));
      g.Issue(Unmap(cb, 0));
      mesh.Draw(g);
      DrawEffect(old(g.bound), cb, data, mesh.State());
    }
  }

  class GameEntity {
    const mesh: Mesh
    const transform: Transform

    constructor (m: Mesh)
      ensures fresh(mesh) && fresh(transform)
      ensures mesh.State() == m.State() && transform.State() == Initial
    {
      mesh := new Mesh.Copy(m);
      transform := new Transform();
    }

    function GetTransform(): (t: Transform)
      ensures t == transform
    {
      transform
    }

    /** As in Entity: always an empty pointer. */
    function GetMeshAsWritten(): (m: Mesh?)
      ensures m == null
    {
      null
    }

    function GetMesh(): (m: Mesh)
      ensures m == mesh
    {
      mesh
    }

    method Draw(cb: Buffer, g: Graphics)
      requires g.Valid()
      modifies g`bound, g`trace, transform
      ensures g.Valid()
      ensures transform.State() == Step(old(transform.State()), GetWorldMatrix)
      ensures g.trace == old(g.trace) + GameEntityDrawCommands(cb, WorldMatrixOf(old(transform.State())), mesh.State())
      ensures g.bound == old(g.bound).(mapped := None, vertexBuffer := mesh.vertexBuffer, indexBuffer := mesh.indexBuffer)
    {
      var world := transform.GetWorldMatrix();
      var data := VertexColorWorldData(White, world, ZeroMatrix, ZeroMatrix);
      g.Issue(Map(cb, 0, WriteDiscard));
      g.Issue(CopyToMapped(data));
      g.Issue(Unmap(cb, 0));
      mesh.Draw(g);
      DrawEffect(old(g.bound), cb, data, mesh.State());
    }
  }
}
