/**
 * Mesh: a vertex buffer and an index buffer created once and immutable,
 * their element counts, and the three context calls that draw them.
 */
module Meshes {
  import opened Wrappers
  import opened Gpu

  /** sizeof(Vertex): Vertex.h is not part of this model, so the size is left open. */
  type ByteSize = x: int | 1 <= x < 0x1_0000_0000 witness 1
  const VertexSize: ByteSize

  /** sizeof(unsigned int). */
  const IndexSize: ByteSize := 4

  /** The fields of a Mesh. */
  datatype MeshState = MeshState(vertexBuffer: Option<Buffer>, indexBuffer: Option<Buffer>,
                                 vertexCount: Int32, indexCount: Int32)

  /**
   * ByteWidth of a buffer of `count` elements: the product is computed in
   * size_t and stored in a UINT, so it is the product modulo 2^32.
   */
  function ByteWidth(elementSize: ByteSize, count: Int32): (w: UInt32)
    ensures 0 <= count && elementSize * count < 0x1_0000_0000 ==> w == elementSize * count
    ensures (elementSize * count - w) % 0x1_0000_0000 == 0
  {
    ToUInt32(elementSize * count)
  }

  function VertexBufferDesc(vertexCount: Int32): BufferDesc {
    BufferDesc(UsageImmutable, ByteWidth(VertexSize, vertexCount), BindVertexBuffer)
  }

  function IndexBufferDesc(indexCount: Int32): BufferDesc {
    BufferDesc(UsageImmutable, ByteWidth(IndexSize, indexCount), BindIndexBuffer)
  }

  /** What Mesh::Draw issues: bind both buffers at slot 0, offset 0, then one indexed draw. */
  function DrawCommands(m: MeshState): seq<Cmd> {
    [ IASetVertexBuffer(0, m.vertexBuffer, VertexSize, 0),
      IASetIndexBuffer(m.indexBuffer, R32Uint, 0),
      DrawIndexed(ToUInt32(m.indexCount), 0, 0) ]
  }

  /**
   * Drawing a mesh leaves exactly its two buffers bound and nothing else
   * changed, and draws every index when the count is not negative.
   */
  lemma DrawBindsItsBuffers(b: Bound, m: MeshState)
    ensures ApplyAll(b, DrawCommands(m)) == b.(vertexBuffer := m.vertexBuffer, indexBuffer := m.indexBuffer)
    ensures m.indexCount >= 0 ==> DrawCommands(m)[2] == DrawIndexed(m.indexCount, 0, 0)
  {
    var cs := DrawCommands(m);
    var b1 := Apply(b, cs[0]);
    var b2 := Apply(b1, cs[1]);
    assert cs[1..][1..][1..] == [];
    calc {
      ApplyAll(b, cs);
      ApplyAll(b1, cs[1..]);
      ApplyAll(b2, cs[1..][1..]);
      ApplyAll(Apply(b2, cs[2]), []);
    }
  }

  /**
   * operator= as written: both buffers are reset first, then every field is
   * read from `source`; when `source` is the target itself (`same`), the
   * buffers it reads are the ones just reset.
   */
  function AssignedAsWritten(target: MeshState, source: MeshState, same: bool): MeshState {
    var reset := target.(vertexBuffer := None, indexBuffer := None);
    var from := if same then reset else source;
    reset.(vertexBuffer := from.vertexBuffer, vertexCount := from.vertexCount,
           indexBuffer := from.indexBuffer, indexCount := from.indexCount)
  }

  /** Assigning a mesh to itself as written loses both buffers and keeps the counts. */
  lemma SelfAssignmentAsWrittenDropsBuffers(m: MeshState)
    ensures AssignedAsWritten(m, m, true) == m.(vertexBuffer := None, indexBuffer := None)
    ensures m.vertexBuffer.Some? ==> AssignedAsWritten(m, m, true) != m
  {
  }

  /** Between two different meshes, operator= as written is a full copy. */
  lemma DistinctAssignmentAsWrittenCopies(target: MeshState, source: MeshState)
    ensures AssignedAsWritten(target, source, false) == source
  {
  }

  class Mesh {
    var vertexBuffer: Option<Buffer>
    var indexBuffer: Option<Buffer>
    var vertexCount: Int32
    var indexCount: Int32

    function State(): MeshState
      reads this
    {
      MeshState(vertexBuffer, indexBuffer, vertexCount, indexCount)
    }

    /** Mesh(): no buffers; the counts are left uninitialised. */
    constructor Empty()
      ensures vertexBuffer == None && indexBuffer == None
    {
      vertexBuffer := None;
      indexBuffer := None;
    }

    /**
     * Records the counts and creates the two immutable buffers, vertex
     * buffer first. The initial data pointers are passed through to the
     * device unread and are not modelled.
     */
    constructor (vertexCount: Int32, indexCount: Int32, g: Graphics)
      requires g.Valid()
      modifies g`bound, g`trace, g`nextId
      ensures g.Valid() && g.bound == old(g.bound)
      ensures State() == MeshState(Some(Buffer(old(g.nextId))), Some(Buffer(old(g.nextId) + 1)),
                                   vertexCount, indexCount)
      ensures GetVertexCount() == vertexCount && GetIndexCount() == indexCount
      ensures g.nextId == old(g.nextId) + 2
      ensures g.trace == old(g.trace) + [ CreateBuffer(Buffer(old(g.nextId)), VertexBufferDesc(vertexCount)),
                                          CreateBuffer(Buffer(old(g.nextId) + 1), IndexBufferDesc(indexCount)) ]
    {
      this.vertexCount := vertexCount;
      this.indexCount := indexCount;
      var vb := g.NewId();
      g.Issue(CreateBuffer(Buffer(vb), VertexBufferDesc(vertexCount)));
      var ib := g.NewId();
      g.Issue(CreateBuffer(Buffer(ib), IndexBufferDesc(indexCount)));
      vertexBuffer := Some(Buffer(vb));
      indexBuffer := Some(Buffer(ib));
    }

    /** The copy constructor: shares both buffers and copies both counts. */
    constructor Copy(other: Mesh)
      ensures State() == other.State()
    {
      vertexBuffer := other.vertexBuffer;
      vertexCount := other.vertexCount;
      indexBuffer := other.indexBuffer;
      indexCount := other.indexCount;
    }

    /** operator= as written: reset, then copy from `other`, which may be this mesh. */
    method AssignAsWritten(other: Mesh)
      modifies this
      ensures State() == AssignedAsWritten(old(State()), old(other.State()), other == this)
    {
      vertexBuffer := None;
      indexBuffer := None;
      vertexBuffer := other.vertexBuffer;
      vertexCount := other.vertexCount;
      indexBuffer := other.indexBuffer;
      indexCount := other.indexCount;
    }

    /** operator= with a self-assignment guard: the target becomes the source, self-assignment included. */
    method Assign(other: Mesh)
      modifies this
      ensures State() == old(other.State())
    {
      if other != this {
        vertexBuffer := None;
        indexBuffer := None;
        vertexBuffer := other.vertexBuffer;
        vertexCount := other.vertexCount;
        indexBuffer := other.indexBuffer;
        indexCount := other.indexCount;
      }
    }

    // The accessors return the shared handles and the recorded counts; the
    // constructor states its round trip through them.

    function GetVertexBuffer(): (b: Option<Buffer>) reads this ensures b == State().vertexBuffer { vertexBuffer }
    function GetIndexBuffer(): (b: Option<Buffer>) reads this ensures b == State().indexBuffer { indexBuffer }
    function GetIndexCount(): (n: Int32) reads this ensures n == State().indexCount { indexCount }
    function GetVertexCount(): (n: Int32) reads this ensures n == State().vertexCount { vertexCount }

    /** Binds the buffers and draws every index. */
    method Draw(g: Graphics)
      requires g.Valid()
      modifies g`bound, g`trace
      ensures g.Valid()
      ensures g.trace == old(g.trace) + DrawCommands(State())
      ensures g.bound == old(g.bound).(vertexBuffer := vertexBuffer, indexBuffer := indexBuffer)
    {
      var stride: UInt32 := VertexSize;
      var offset: UInt32 := 0;
      g.Issue(IASetVertexBuffer(0, vertexBuffer, stride, offset));
      g.Issue(IASetIndexBuffer(indexBuffer, R32Uint, 0));
      g.Issue(DrawIndexed(ToUInt32(indexCount), 0, 0));
    }
  }
}
