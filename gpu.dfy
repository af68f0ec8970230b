/**
 * The Direct3D 11 device and immediate context the core talks to, and the
 * SimpleShader parameter calls it makes, as an append-only trace of issued
 * commands plus the pipeline state those commands leave bound.
 */
module Gpu {
  import opened Wrappers
  import opened Maths

  /** UINT and int of the source. */
  type UInt32 = x: int | 0 <= x < 0x1_0000_0000
  type Int32 = x: int | -0x8000_0000 <= x < 0x8000_0000

  /** An integer converted to UINT: it wraps modulo 2^32. */
  function ToUInt32(x: int): (r: UInt32)
    ensures 0 <= x < 0x1_0000_0000 ==> r == x
    ensures (x - r) % 0x1_0000_0000 == 0
  {
    x % 0x1_0000_0000
  }

  // Handles of device objects (COM pointers) and of shader objects.
  datatype Buffer = Buffer(id: nat)
  datatype Texture = Texture(id: nat)
  datatype Rtv = Rtv(id: nat)
  datatype Dsv = Dsv(id: nat)
  datatype Srv = Srv(id: nat)
  datatype Sampler = Sampler(id: nat)
  datatype VertexShader = VertexShader(id: nat)
  datatype PixelShader = PixelShader(id: nat)

  datatype Usage = UsageDefault | UsageImmutable
  datatype BufferBind = BindVertexBuffer | BindIndexBuffer
  /** D3D11_BUFFER_DESC as the core fills it (CPU access flags are always 0). */
  datatype BufferDesc = BufferDesc(usage: Usage, byteWidth: UInt32, bind: BufferBind)

  datatype Format = R32Typeless | D32Float | R32Float | R8G8B8A8Unorm | R32Uint
  datatype TextureBind = BindDepthStencilAndShaderResource | BindRenderTargetAndShaderResource
  /** D3D11_TEXTURE2D_DESC as the core fills it (one mip, one slice, no MSAA). */
  datatype TextureDesc = TextureDesc(width: int, height: int, format: Format, bind: TextureBind)

  datatype AddressMode = AddressClamp
  datatype Filter = MinMagMipLinear
  datatype SamplerDesc = SamplerDesc(address: AddressMode, filter: Filter)

  datatype MapMode = WriteDiscard

  /** D3D11_VIEWPORT. */
  datatype Viewport = Viewport(topLeftX: real, topLeftY: real, width: real, height: real,
                               minDepth: real, maxDepth: real)

  /** The constant-buffer record the entities upload (VertexColorWorldData). */
  datatype VertexColorWorldData = VertexColorWorldData(color: Vec4, world: Matrix, view: Matrix,
                                                       projection: Matrix)

  datatype Cmd =
    // Device: resource creation and release.
    | CreateBuffer(buffer: Buffer, desc: BufferDesc)
    | CreateTexture2D(texture: Texture, tdesc: TextureDesc)
    | CreateDepthStencilView(dsv: Dsv, ofTexture: Texture, format: Format)
    | CreateRenderTargetView(rtv: Rtv, ofTexture: Texture, format: Format)
    | CreateShaderResourceView(srv: Srv, ofTexture: Texture, viewFormat: Option<Format>)
    | CreateSamplerState(sampler: Sampler, sdesc: SamplerDesc)
    | ReleaseRenderTargetView(rtv: Rtv)
    | ReleaseShaderResourceView(srv: Srv)
    // Context: output merger, rasterizer, input assembler, draws.
    | ClearDepthStencilView(dsv: Dsv, depth: real)
    | ClearRenderTargetView(rtv: Rtv, color: Vec4)
    | OMSetRenderTargets(target: Option<Rtv>, depthTarget: Option<Dsv>)
    | RSSetViewport(viewport: Viewport)
    | IASetVertexBuffer(slot: nat, vertexBuffer: Option<Buffer>, stride: UInt32, offset: UInt32)
    | IASetIndexBuffer(indexBuffer: Option<Buffer>, indexFormat: Format, indexOffset: UInt32)
    | DrawIndexed(indexCount: UInt32, startIndex: UInt32, baseVertex: Int32)
    | Draw(vertexCount: UInt32, startVertex: UInt32)
    | Map(mapBuffer: Buffer, subresource: nat, mode: MapMode)
    | CopyToMapped(data: VertexColorWorldData)
    | Unmap(unmapBuffer: Buffer, unmapSubresource: nat)
    // Shaders: SetShader binds the stage; the rest are SimpleShader parameter calls.
    | VSSetShader(vs: VertexShader)
    | PSSetShader(ps: Option<PixelShader>)
    | SetMatrix4x4(matrixShader: VertexShader, matrixName: string, m: Matrix)
    | CopyAllBufferData(copyShader: VertexShader)
    | SetShaderResourceView(srvShader: PixelShader, srvName: string, view: Srv)
    | SetSamplerState(samplerShader: PixelShader, samplerName: string, state: Sampler)

  /** A command that only creates a device object. */
  predicate IsCreation(c: Cmd) {
    c.CreateBuffer? || c.CreateTexture2D? || c.CreateDepthStencilView? || c.CreateRenderTargetView?
    || c.CreateShaderResourceView? || c.CreateSamplerState?
  }

  /** The part of the pipeline state the core changes. */
  datatype Bound = Bound(
    renderTarget: Option<Rtv>,
    depthTarget: Option<Dsv>,
    viewport: Viewport,
    vertexShader: Option<VertexShader>,
    pixelShader: Option<PixelShader>,
    vertexBuffer: Option<Buffer>,
    indexBuffer: Option<Buffer>,
    mapped: Option<Buffer>)

  /** The pipeline state after one command. */
  function Apply(b: Bound, c: Cmd): Bound {
    match c
    case OMSetRenderTargets(t, d) => b.(renderTarget := t, depthTarget := d)
    case RSSetViewport(v) => b.(viewport := v)
    case VSSetShader(vs) => b.(vertexShader := Some(vs))
    case PSSetShader(ps) => b.(pixelShader := ps)
    case IASetVertexBuffer(_, vb, _, _) => b.(vertexBuffer := vb)
    case IASetIndexBuffer(ib, _, _) => b.(indexBuffer := ib)
    case Map(buf, _, _) => b.(mapped := Some(buf))
    case Unmap(buf, _) => if b.mapped == Some(buf) then b.(mapped := None) else b
    case _ => b
  }

  /** The pipeline state after a sequence of commands, in order. */
  function ApplyAll(b: Bound, cs: seq<Cmd>): Bound
    decreases |cs|
  {
    if cs == [] then b else ApplyAll(Apply(b, cs[0]), cs[1..])
  }

  /** Replaying two command sequences one after the other is replaying their concatenation. */
  lemma {:induction false} ApplyAllAppend(b: Bound, xs: seq<Cmd>, ys: seq<Cmd>)
    ensures ApplyAll(b, xs + ys) == ApplyAll(ApplyAll(b, xs), ys)
    decreases |xs|
  {
    if xs != [] {
      assert (xs + ys)[0] == xs[0];
      assert (xs + ys)[1..] == xs[1..] + ys;
      ApplyAllAppend(Apply(b, xs[0]), xs[1..], ys);
    } else {
      assert xs + ys == ys;
    }
  }

  predicate IsDraw(c: Cmd) { c.Draw? }
  predicate IsIndexedDraw(c: Cmd) { c.DrawIndexed? }

  /** How many commands of a sequence satisfy `p`. */
  function Count(cs: seq<Cmd>, p: Cmd -> bool): nat
    decreases |cs|
  {
    if cs == [] then 0 else (if p(cs[0]) then 1 else 0) + Count(cs[1..], p)
  }

  lemma {:induction false} CountAppend(xs: seq<Cmd>, ys: seq<Cmd>, p: Cmd -> bool)
    ensures Count(xs + ys, p) == Count(xs, p) + Count(ys, p)
    decreases |xs|
  {
    if xs == [] {
      assert xs + ys == ys;
    } else {
      assert (xs + ys)[0] == xs[0];
      assert (xs + ys)[1..] == xs[1..] + ys;
      CountAppend(xs[1..], ys, p);
    }
  }

  /** Commands that do not rebind the output merger leave both targets as they were. */
  lemma {:induction false} KeepsTargets(b: Bound, cs: seq<Cmd>)
    requires forall i :: 0 <= i < |cs| ==> !cs[i].OMSetRenderTargets?
    ensures ApplyAll(b, cs).renderTarget == b.renderTarget
    ensures ApplyAll(b, cs).depthTarget == b.depthTarget
    decreases |cs|
  {
    if cs != [] {
      KeepsTargets(Apply(b, cs[0]), cs[1..]);
    }
  }

  /** Commands that set no viewport leave the viewport as it was. */
  lemma {:induction false} KeepsViewport(b: Bound, cs: seq<Cmd>)
    requires forall i :: 0 <= i < |cs| ==> !cs[i].RSSetViewport?
    ensures ApplyAll(b, cs).viewport == b.viewport
    decreases |cs|
  {
    if cs != [] {
      KeepsViewport(Apply(b, cs[0]), cs[1..]);
    }
  }

  /** Commands that bind no shader leave both shader stages as they were. */
  lemma {:induction false} KeepsShaders(b: Bound, cs: seq<Cmd>)
    requires forall i :: 0 <= i < |cs| ==> !cs[i].PSSetShader? && !cs[i].VSSetShader?
    ensures ApplyAll(b, cs).pixelShader == b.pixelShader
    ensures ApplyAll(b, cs).vertexShader == b.vertexShader
    decreases |cs|
  {
    if cs != [] {
      KeepsShaders(Apply(b, cs[0]), cs[1..]);
    }
  }

  /**
   * Graphics::Device, Graphics::Context and the window: the command trace,
   * the state it leaves bound, the back buffer and main depth buffer views,
   * and the window size.
   */
  class Graphics {
    ghost const initial: Bound
    var bound: Bound
    var trace: seq<Cmd>
    var nextId: nat
    const backBuffer: Rtv
    const depthBuffer: Dsv
    var windowWidth: nat
    var windowHeight: nat

    /** The bound state is always the replay of the trace. */
    ghost predicate Valid()
      reads this
    {
      bound == ApplyAll(initial, trace)
    }

    constructor (backBuffer: Rtv, depthBuffer: Dsv, width: nat, height: nat, start: Bound)
      ensures Valid() && trace == [] && bound == start
      ensures this.backBuffer == backBuffer && this.depthBuffer == depthBuffer
      ensures windowWidth == width && windowHeight == height
    {
      this.backBuffer := backBuffer;
      this.depthBuffer := depthBuffer;
      windowWidth, windowHeight := width, height;
      initial := start;
      bound := start;
      trace := [];
      nextId := 0;
    }

    /** Issues one call: it is appended to the trace and changes the bound state. */
    method Issue(c: Cmd)
      requires Valid()
      modifies this`bound, this`trace
      ensures Valid()
      ensures trace == old(trace) + [c]
      ensures bound == Apply(old(bound), c)
    {
      ApplyAllAppend(initial, trace, [c]);
      trace := trace + [c];
      bound := Apply(bound, c);
    }

    /** A handle value no earlier creation has returned. */
    method NewId() returns (id: nat)
      modifies this`nextId
      ensures id == old(nextId) && nextId == old(nextId) + 1
    {
      id := nextId;
      nextId := nextId + 1;
    }

    /** The window was resized (Window::Width()/Height() change). */
    method SetWindowSize(width: nat, height: nat)
      modifies this`windowWidth, this`windowHeight
      ensures windowWidth == width && windowHeight == height
    {
      windowWidth, windowHeight := width, height;
    }
  }
}
