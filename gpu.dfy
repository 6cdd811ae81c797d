/** The graphics device as the engine sees it through SDL GPU: an allocator
    that hands out fresh handles for buffers, textures, shaders and pipelines,
    may refuse any request, tracks which objects are still alive, and records
    the commands issued against it. Nothing about how the GPU executes them
    is modelled. */
module Gpu {
  import opened Types

  /** A device-owned object, named by the device that created it and a
      serial number; handles of different devices never coincide. */
  datatype Handle = Handle(owner: GpuDevice, id: nat)

  /** A C pointer to a device object: null, a real object, or the garbage
      left in memory that `SDL_malloc` returned and nobody initialised. */
  datatype Ptr = Null | Addr(h: Handle) | Indeterminate

  datatype SampleCount = Samples1 | Samples2 | Samples4 | Samples8

  datatype TextureFormat = InvalidFormat | SurfaceFormat(code: nat) | D16Unorm

  datatype TextureUsage = DepthStencilTarget | ColorTarget | ColorTargetAndSampler

  datatype TextureInfo = TextureInfo(
    format: TextureFormat, usage: TextureUsage,
    width: u32, height: u32, samples: SampleCount)

  datatype BufferUsage = VertexUsage | IndexUsage

  datatype ShaderStage = VertexStage | FragmentStage

  datatype ShaderInfo = ShaderInfo(
    stage: ShaderStage, code: seq<byte>,
    samplers: u32, uniformBuffers: u32, storageBuffers: u32, storageTextures: u32)

  datatype ElementFormat = Float2 | Float3

  datatype VertexAttribute = VertexAttribute(
    location: nat, bufferSlot: nat, format: ElementFormat, offset: nat)

  datatype CompareOp = Less | LessOrEqual | Always

  datatype PipelineInfo = PipelineInfo(
    vertexShader: Ptr, fragmentShader: Ptr,
    bufferSlot: nat, pitch: nat, attributes: seq<VertexAttribute>,
    samples: SampleCount,
    depthCompare: CompareOp, depthTest: bool, depthWrite: bool,
    colorFormat: TextureFormat, depthFormat: TextureFormat)

  /** What a live handle stands for. Buffers and transfer buffers carry their
      bytes, so that an upload can be followed end to end. */
  datatype Resource =
    | Buffer(usage: BufferUsage, bytes: seq<byte>)
    | TransferBuffer(data: seq<byte>, mapped: bool)
    | Texture(info: TextureInfo)
    | Shader(shader: ShaderInfo)
    | Pipeline(pipeline: PipelineInfo)

  datatype LoadOp = Load | Clear | DontCareLoad
  datatype StoreOp = Store | DontCareStore | Resolve

  datatype ColorTargetInfo = ColorTargetInfo(
    texture: Ptr, resolveTexture: Ptr, load: LoadOp, store: StoreOp,
    cycle: bool, cycleResolve: bool)

  datatype DepthTargetInfo = DepthTargetInfo(
    texture: Ptr, clearDepth: real, load: LoadOp, store: StoreOp,
    stencilLoad: LoadOp, stencilStore: StoreOp, cycle: bool)

  datatype IndexElementSize = Index16 | Index32

  /** One call into the device's command stream, in issue order. */
  datatype Command =
    | BeginRenderPass(commandBuffer: Ptr, color: ColorTargetInfo, depth: DepthTargetInfo, pass: Ptr)
    | EndRenderPass(pass: Ptr)
    | BindPipeline(pass: Ptr, pipeline: Ptr)
    | BindVertexBuffer(pass: Ptr, slot: nat, buffer: Ptr, offset: nat)
    | BindIndexBuffer(pass: Ptr, buffer: Ptr, elementSize: IndexElementSize)
    | Draw(pass: Ptr, vertices: nat, instances: nat)
    | DrawIndexed(pass: Ptr, indices: nat, instances: nat)
    | PushVertexUniform(commandBuffer: Ptr, slot: nat, data: Mat4)
    | Blit(commandBuffer: Ptr, source: Ptr, destination: Ptr, width: u32, height: u32)
    | Submit(commandBuffer: Ptr)

  /** A release the device cannot honour: the pointer is garbage, was
      already released, or belongs to another device. */
  datatype Fault = ReleasedUnknown(p: Ptr)

  /** `s` with the bytes from `offset` on replaced by `t` (`memcpy` into a
      mapped region). */
  function Overwrite(s: seq<byte>, offset: nat, t: seq<byte>): (r: seq<byte>)
    requires offset + |t| <= |s|
    ensures |r| == |s|
    ensures r[offset..offset + |t|] == t
    ensures r[..offset] == s[..offset] && r[offset + |t|..] == s[offset + |t|..]
  {
    s[..offset] + t + s[offset + |t|..]
  }

  /** The handle a pointer names, if any. */
  function HandlesOf(p: Ptr): set<Handle>
  {
    if p.Addr? then {p.h} else {}
  }

  /** The live objects after releasing `p`. */
  function AfterRelease(live: map<Handle, Resource>, p: Ptr): (r: map<Handle, Resource>)
    ensures r.Keys == live.Keys - HandlesOf(p)
    ensures forall h | h in r :: r[h] == live[h]
  {
    live - HandlesOf(p)
  }

  /** The faults after releasing `p`: one more exactly when `p` is neither
      null nor live. */
  function FaultsAfterRelease(live: map<Handle, Resource>, faults: seq<Fault>, p: Ptr): (r: seq<Fault>)
    ensures p.Null? || (p.Addr? && p.h in live) <==> r == faults
    ensures !(p.Null? || (p.Addr? && p.h in live)) <==> r == faults + [ReleasedUnknown(p)]
  {
    if p.Null? || (p.Addr? && p.h in live) then faults else faults + [ReleasedUnknown(p)]
  }

  class GpuDevice {
    /** `SDL_GPUTextureSupportsSampleCount(device, swapchain format, 4)`. */
    const supportsMsaa4: bool
    /** `SDL_GetGPUSwapchainTextureFormat(device, window)`. */
    const swapchainFormat: TextureFormat

    var resources: map<Handle, Resource>
    /** Command buffers acquired and neither submitted nor cancelled. */
    var pending: set<Handle>
    var log: seq<Command>
    var faults: seq<Fault>
    var nextId: nat
    var claimed: bool
    var destroyed: bool

    ghost predicate Valid()
      reads this
    {
      && (forall h | h in resources :: h.owner == this && h.id < nextId)
      && (forall h | h in pending :: h.owner == this && h.id < nextId)
      && resources.Keys !! pending
    }

    /** The state of a device `SDL_CreateGPUDevice` has just returned. */
    ghost predicate Pristine()
      reads this
    {
      resources == map[] && pending == {} && log == [] && faults == [] && !claimed && !destroyed
    }

    predicate IsLive(p: Ptr)
      reads this
    {
      p.Addr? && p.h in resources
    }

    constructor ()
      ensures Valid() && Pristine()
    {
      resources, pending, log, faults := map[], {}, [], [];
      nextId, claimed, destroyed := 0, false, false;
    }

    /** `SDL_ClaimWindowForGPUDevice`. */
    method ClaimWindow() returns (ok: bool)
      modifies this`claimed
      ensures ok ==> claimed
      ensures !ok ==> claimed == old(claimed)
    {
      ok :| true;
      if ok {
        claimed := true;
      }
    }

    /** `SDL_ReleaseWindowFromGPUDevice`. */
    method ReleaseWindow()
      modifies this`claimed
      ensures !claimed
    {
      claimed := false;
    }

    /** `SDL_DestroyGPUDevice`. */
    method Destroy()
      modifies this`destroyed
      ensures destroyed
    {
      destroyed := true;
    }

    /** Any `SDL_CreateGPU*` call: either null, or a fresh handle now alive as `r`. */
    method Create(r: Resource) returns (p: Ptr)
      requires Valid()
      modifies this`resources, this`nextId
      ensures Valid()
      ensures p.Null? || p.Addr?
      ensures p.Null? ==> resources == old(resources) && nextId == old(nextId)
      ensures p.Addr? ==> p.h == Handle(this, old(nextId)) && nextId == old(nextId) + 1
      ensures p.Addr? ==> p.h !in old(resources) && p.h !in pending
      ensures p.Addr? ==> resources == old(resources)[p.h := r]
    {
      var ok: bool :| true;
      if ok {
        var h := Handle(this, nextId);
        nextId := nextId + 1;
        resources := resources[h := r];
        p := Addr(h);
      } else {
        p := Null;
      }
    }

    /** Any `SDL_ReleaseGPU*` call. Releasing null does nothing; releasing
        anything the device does not own is a fault and changes nothing else. */
    method Release(p: Ptr)
      requires Valid()
      modifies this`resources, this`faults
      ensures Valid()
      ensures resources == AfterRelease(old(resources), p)
      ensures faults == FaultsAfterRelease(old(resources), old(faults), p)
    {
      if p.Addr? && p.h in resources {
        resources := resources - {p.h};
      } else if !p.Null? {
        faults := faults + [ReleasedUnknown(p)];
      }
    }

    /** `SDL_MapGPUTransferBuffer`: may fail; only a live transfer buffer can be mapped. */
    method MapTransfer(p: Ptr) returns (ok: bool)
      requires Valid()
      modifies this`resources
      ensures Valid()
      ensures ok ==> old(IsLive(p)) && old(resources[p.h]).TransferBuffer?
      ensures ok ==> resources == old(resources)[p.h := old(resources[p.h]).(mapped := true)]
      ensures !ok ==> resources == old(resources)
    {
      ok :| true;
      if ok && p.Addr? && p.h in resources && resources[p.h].TransferBuffer? {
        resources := resources[p.h := resources[p.h].(mapped := true)];
      } else {
        ok := false;
      }
    }

    /** `SDL_memcpy` into the mapped memory of a transfer buffer. Writing out
        of bounds or into unmapped memory is the caller's undefined behaviour. */
    method WriteTransfer(p: Ptr, offset: nat, bytes: seq<byte>)
      requires Valid() && IsLive(p) && resources[p.h].TransferBuffer? && resources[p.h].mapped
      requires offset + |bytes| <= |resources[p.h].data|
      modifies this`resources
      ensures Valid()
      ensures resources == old(resources)[p.h := TransferBuffer(Overwrite(old(resources[p.h]).data, offset, bytes), true)]
    {
      resources := resources[p.h := TransferBuffer(Overwrite(resources[p.h].data, offset, bytes), true)];
    }

    /** `SDL_UnmapGPUTransferBuffer`. */
    method Unmap(p: Ptr)
      requires Valid()
      modifies this`resources
      ensures Valid()
      ensures old(IsLive(p)) && old(resources[p.h]).TransferBuffer? ==>
                resources == old(resources)[p.h := old(resources[p.h]).(mapped := false)]
      ensures !(old(IsLive(p)) && old(resources[p.h]).TransferBuffer?) ==> resources == old(resources)
    {
      if p.Addr? && p.h in resources && resources[p.h].TransferBuffer? {
        resources := resources[p.h := resources[p.h].(mapped := false)];
      }
    }

    /** `SDL_AcquireGPUCommandBuffer`: may fail. */
    method AcquireCommandBuffer() returns (cb: Ptr)
      requires Valid()
      modifies this`pending, this`nextId
      ensures Valid()
      ensures cb.Null? || cb.Addr?
      ensures old(nextId) <= nextId
      ensures cb.Null? ==> pending == old(pending)
      ensures cb.Addr? ==> cb.h.owner == this && cb.h !in old(pending) && cb.h !in resources
      ensures cb.Addr? ==> pending == old(pending) + {cb.h}
    {
      var ok: bool :| true;
      if ok {
        var h := Handle(this, nextId);
        nextId := nextId + 1;
        pending := pending + {h};
        cb := Addr(h);
      } else {
        cb := Null;
      }
    }

    /** `SDL_AcquireGPUSwapchainTexture`: fails outright, or succeeds with a
        null texture (window minimised), or yields the frame's texture. The
        swapchain texture belongs to the window, not the application. */
    method AcquireSwapchainTexture(cb: Ptr) returns (ok: bool, texture: Ptr)
      requires Valid()
      modifies this`nextId
      ensures Valid()
      ensures old(nextId) <= nextId
      ensures !ok ==> texture.Null?
      ensures texture.Null? || (texture.Addr? && texture.h.owner == this && texture.h !in resources)
      ensures !(cb.Addr? && cb.h in pending) ==> !ok
    {
      ok :| true;
      var present: bool :| true;
      texture := Null;
      if !(cb.Addr? && cb.h in pending) {
        ok := false;
      } else if ok && present {
        texture := Addr(Handle(this, nextId));
        nextId := nextId + 1;
      }
    }

    /** `SDL_BeginGPURenderPass`: records the pass and returns it, or null. */
    method BeginGPURenderPass(cb: Ptr, color: ColorTargetInfo, depth: DepthTargetInfo) returns (pass: Ptr)
      requires Valid()
      modifies this`log, this`nextId
      ensures Valid()
      ensures old(nextId) <= nextId
      ensures pass.Null? || (pass.Addr? && pass.h.owner == this && pass.h !in resources && pass.h !in pending)
      ensures log == old(log) + [BeginRenderPass(cb, color, depth, pass)]
    {
      var ok: bool :| true;
      if ok {
        pass := Addr(Handle(this, nextId));
        nextId := nextId + 1;
      } else {
        pass := Null;
      }
      log := log + [BeginRenderPass(cb, color, depth, pass)];
    }

    /** A pass- or command-buffer-level call that only enters the stream:
        binds, pushes, draws, ends of passes and blits. */
    method Record(c: Command)
      modifies this`log
      ensures log == old(log) + [c]
    {
      log := log + [c];
    }

    /** `SDL_UploadToGPUBuffer` on a copy pass of `cb`: the first `size` bytes
        of `dst` become the bytes of the transfer buffer `src` from `srcOffset`.
        A copy pass of a null command buffer is null and the upload does nothing. */
    method Upload(cb: Ptr, src: Ptr, srcOffset: nat, dst: Ptr, size: nat)
      requires Valid()
      modifies this`resources
      ensures Valid()
      ensures old(UploadApplies(cb, src, srcOffset, dst, size)) ==>
                resources == old(resources)[dst.h := Buffer(old(resources[dst.h]).usage,
                  Overwrite(old(resources[dst.h]).bytes, 0, old(resources[src.h]).data[srcOffset..srcOffset + size]))]
      ensures !old(UploadApplies(cb, src, srcOffset, dst, size)) ==> resources == old(resources)
    {
      if UploadApplies(cb, src, srcOffset, dst, size) {
        var chunk := resources[src.h].data[srcOffset..srcOffset + size];
        resources := resources[dst.h := Buffer(resources[dst.h].usage, Overwrite(resources[dst.h].bytes, 0, chunk))];
      }
    }

    predicate UploadApplies(cb: Ptr, src: Ptr, srcOffset: nat, dst: Ptr, size: nat)
      reads this
    {
      && cb.Addr? && cb.h in pending
      && IsLive(src) && resources[src.h].TransferBuffer?
      && srcOffset + size <= |resources[src.h].data|
      && IsLive(dst) && resources[dst.h].Buffer?
      && size <= |resources[dst.h].bytes|
    }

    /** `SDL_SubmitGPUCommandBuffer`: a pending command buffer stops being pending. */
    method SubmitGPUCommandBuffer(cb: Ptr)
      requires Valid()
      modifies this`pending, this`log
      ensures Valid()
      ensures cb.Addr? && cb.h in old(pending) ==> pending == old(pending) - {cb.h} && log == old(log) + [Submit(cb)]
      ensures !(cb.Addr? && cb.h in old(pending)) ==> pending == old(pending) && log == old(log)
    {
      if cb.Addr? && cb.h in pending {
        pending := pending - {cb.h};
        log := log + [Submit(cb)];
      }
    }
  }

  /** `SDL_CreateGPUDevice`: may fail; a new device owns nothing yet. */
  method CreateDevice() returns (d: GpuDevice?)
    ensures d != null ==> fresh(d) && d.Valid() && d.Pristine()
  {
    var ok: bool :| true;
    if ok {
      d := new GpuDevice();
    } else {
      d := null;
    }
  }
}
