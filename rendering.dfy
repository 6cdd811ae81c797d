/** The render service (`RenderService`, a singleton in the engine, here an
    explicitly constructed object): it owns the GPU device, the sample count,
    the depth, MSAA and resolve textures and the registry of named pipelines,
    creates and destroys meshes, and opens and closes the frame's render pass.
    Every SDL call goes through the `Gpu.GpuDevice` it holds; calls through a
    null device do nothing or fail, as SDL's own device checks make them. */
module Rendering {
  import opened Types
  import opened Gpu
  import opened HostMemory
  import opened RenderPlan

  /** The symbols the service takes from the generated shader headers
      `basic_triangle.vert.h`, `basic_triangle.frag.h`, `light_source.vert.h`
      and `light_source.frag.h`. */
  const BasicTriangleVert: string := "BASIC_TRIANGLE_VERT_SHADER"
  const BasicTriangleFrag: string := "BASIC_TRIANGLE_FRAG_SHADER"
  const LightSourceVert: string := "LIGHT_SOURCE_VERT_SHADER"
  const LightSourceFrag: string := "LIGHT_SOURCE_FRAG_SHADER"
  /** Each array's length is the symbol `<array>_SIZE`. */
  const SizeSuffix: string := "_SIZE"

  /** The two pipelines `Initialize` builds. */
  const DefaultMesh: string := "default_mesh"
  const LightSource: string := "light_source"
  const BuiltinPipelines: set<string> := {DefaultMesh, LightSource}

  /** What the included headers declare: byte arrays and their sizes, by name. */
  datatype HeaderSymbols = HeaderSymbols(arrays: map<string, seq<byte>>, sizes: map<string, nat>)

  /** `h` declares the array `name` and its size `name_SIZE`, no larger than the array. */
  predicate Declares(h: HeaderSymbols, name: string)
  {
    name in h.arrays && name + SizeSuffix in h.sizes && h.sizes[name + SizeSuffix] <= |h.arrays[name]|
  }

  /** The declarations `RenderService.cpp` compiles against. */
  predicate DeclaresServiceShaders(h: HeaderSymbols)
  {
    Declares(h, BasicTriangleVert) && Declares(h, BasicTriangleFrag)
    && Declares(h, LightSourceVert) && Declares(h, LightSourceFrag)
  }

  /** An SDL window; only its identity matters here. */
  datatype Window = Window(id: nat)

  /** `MeshHandle`: a block from `SDL_malloc` that `CreateMesh` fills field by field. */
  class MeshHandle {
    var vertexBuffer: Ptr
    var indexBuffer: Ptr
    var vertexSize: u32
    var indexSize: u32
    var vertexCount: u32
    var indexCount: u32

    /** Freshly allocated: the pointer fields hold garbage, the sizes anything. */
    constructor ()
      ensures vertexBuffer == Indeterminate && indexBuffer == Indeterminate
    {
      vertexBuffer, indexBuffer := Indeterminate, Indeterminate;
    }

    function Info(): MeshInfo
      reads this
    {
      MeshInfo(vertexBuffer, indexBuffer, vertexSize, indexSize, vertexCount, indexCount)
    }
  }

  /** `RenderState`: the frame's command buffer, swapchain texture, render
      pass and the two target descriptions, in a block from `SDL_malloc`. */
  class RenderState {
    var commandBuffer: Ptr
    var swapchainTexture: Ptr
    var renderPass: Ptr
    var colorTarget: ColorTargetInfo
    var depthTarget: DepthTargetInfo

    constructor ()
      ensures commandBuffer == Indeterminate && swapchainTexture == Indeterminate && renderPass == Indeterminate
    {
      commandBuffer, swapchainTexture, renderPass := Indeterminate, Indeterminate, Indeterminate;
    }
  }

  /** How `BeginPass` ended; when the swapchain step gives up, the command
      buffer it acquired stays pending for good. */
  datatype PassOutcome = NoMemory | NoCommandBuffer | SwapchainFailed(leaked: Handle) | NoSwapchainTexture(leaked: Handle) | Opened

  /** How `CreateMesh` ended: at which step it gave up, or whether the copy
      pass ran (it does not when no command buffer could be acquired, which
      the source does not check). */
  datatype MeshOutcome = MeshNoMemory | NoVertexBuffer | NoIndexBuffer | NoTransferBuffer | MapFailed
                       | Uploaded | NotUploaded

  /** The live objects after one slot of `SetViewport`: `before` released,
      then `after` (if real) alive as a texture described by `info`. */
  function Replaced(live: map<Handle, Resource>, before: Ptr, after: Ptr, info: TextureInfo): (r: map<Handle, Resource>)
    ensures after.Addr? ==> after.h in r && r[after.h] == Texture(info)
    ensures before.Addr? && before != after ==> before.h !in r
    ensures forall h | h in live && h !in HandlesOf(before) :: h in r
    ensures forall h | h in r && h !in HandlesOf(after) :: h in live && h !in HandlesOf(before) && r[h] == live[h]
  {
    var rest := AfterRelease(live, before);
    if after.Addr? then rest[after.h := Texture(info)] else rest
  }

  /** The live objects after a creation that yielded `p`. */
  function Added(live: map<Handle, Resource>, p: Ptr, r: Resource): map<Handle, Resource>
  {
    if p.Addr? then live[p.h := r] else live
  }

  /** Creating two shaders and a pipeline, then releasing the shaders, leaves
      just the pipeline, when all three handles are new and distinct. */
  lemma ShadersReleasedAfterPipeline(live: map<Handle, Resource>, vs: Ptr, vsr: Resource, fs: Ptr, fsr: Resource, p: Ptr, pr: Resource)
    requires vs.Addr? ==> vs.h !in live && (fs.Addr? ==> vs.h != fs.h) && (p.Addr? ==> vs.h != p.h)
    requires fs.Addr? ==> fs.h !in live && (p.Addr? ==> fs.h != p.h)
    requires p.Addr? ==> p.h !in live
    ensures AfterRelease(AfterRelease(Added(Added(Added(live, vs, vsr), fs, fsr), p, pr), vs), fs) == Added(live, p, pr)
  {
  }

  /** The preconditions of the three `SetViewport` lemmas: every live object
      and every old slot of device `dev` was issued before serial `n0`; the
      new slots are distinct and issued from `n0` on. */
  predicate ResizeFresh(live: map<Handle, Resource>, dev: GpuDevice, n0: nat, d0: Ptr, d1: Ptr, m0: Ptr, m1: Ptr, r0: Ptr, r1: Ptr)
  {
    && (forall h | h in live :: h.owner == dev && h.id < n0)
    && (d0.Addr? && d0.h.owner == dev ==> d0.h.id < n0)
    && (m0.Addr? && m0.h.owner == dev ==> m0.h.id < n0)
    && (r0.Addr? && r0.h.owner == dev ==> r0.h.id < n0)
    && (d1.Addr? ==> d1.h.owner == dev && n0 <= d1.h.id && d1 != m1 && d1 != r1)
    && (m1.Addr? ==> m1.h.owner == dev && n0 <= m1.h.id && m1 != r1)
    && (r1.Addr? ==> r1.h.owner == dev && n0 <= r1.h.id)
  }

  /** After the three slots of `SetViewport`, each new slot holds its texture. */
  lemma ResizedSlotsHold(
    live: map<Handle, Resource>, dev: GpuDevice, n0: nat,
    d0: Ptr, d1: Ptr, di: TextureInfo, m0: Ptr, m1: Ptr, mi: TextureInfo, r0: Ptr, r1: Ptr, ri: TextureInfo)
    requires ResizeFresh(live, dev, n0, d0, d1, m0, m1, r0, r1)
    ensures d1.Addr? ==> d1.h in Replaced(Replaced(Replaced(live, d0, d1, di), m0, m1, mi), r0, r1, ri) && Replaced(Replaced(Replaced(live, d0, d1, di), m0, m1, mi), r0, r1, ri)[d1.h] == Texture(di)
    ensures m1.Addr? ==> m1.h in Replaced(Replaced(Replaced(live, d0, d1, di), m0, m1, mi), r0, r1, ri) && Replaced(Replaced(Replaced(live, d0, d1, di), m0, m1, mi), r0, r1, ri)[m1.h] == Texture(mi)
    ensures r1.Addr? ==> r1.h in Replaced(Replaced(Replaced(live, d0, d1, di), m0, m1, mi), r0, r1, ri) && Replaced(Replaced(Replaced(live, d0, d1, di), m0, m1, mi), r0, r1, ri)[r1.h] == Texture(ri)
  {
  }

  /** After the three slots of `SetViewport`, the old slots are no longer alive. */
  lemma ResizedSlotsReleased(
    live: map<Handle, Resource>, dev: GpuDevice, n0: nat,
    d0: Ptr, d1: Ptr, di: TextureInfo, m0: Ptr, m1: Ptr, mi: TextureInfo, r0: Ptr, r1: Ptr, ri: TextureInfo)
    requires ResizeFresh(live, dev, n0, d0, d1, m0, m1, r0, r1)
    ensures d0.Addr? ==> d0.h !in Replaced(Replaced(Replaced(live, d0, d1, di), m0, m1, mi), r0, r1, ri)
    ensures m0.Addr? ==> m0.h !in Replaced(Replaced(Replaced(live, d0, d1, di), m0, m1, mi), r0, r1, ri)
    ensures r0.Addr? ==> r0.h !in Replaced(Replaced(Replaced(live, d0, d1, di), m0, m1, mi), r0, r1, ri)
  {
  }

  /** `SetViewport` touches nothing but the slots: every other object stays
      alive and unchanged, and nothing else becomes alive. */
  lemma ResizedSlotsKeepOthers(
    live: map<Handle, Resource>, dev: GpuDevice, n0: nat,
    d0: Ptr, d1: Ptr, di: TextureInfo, m0: Ptr, m1: Ptr, mi: TextureInfo, r0: Ptr, r1: Ptr, ri: TextureInfo)
    requires ResizeFresh(live, dev, n0, d0, d1, m0, m1, r0, r1)
    ensures forall h | h in live && h !in HandlesOf(d0) + HandlesOf(m0) + HandlesOf(r0) :: h in Replaced(Replaced(Replaced(live, d0, d1, di), m0, m1, mi), r0, r1, ri) && Replaced(Replaced(Replaced(live, d0, d1, di), m0, m1, mi), r0, r1, ri)[h] == live[h]
    ensures forall h | h in Replaced(Replaced(Replaced(live, d0, d1, di), m0, m1, mi), r0, r1, ri) :: h in live || h in HandlesOf(d1) + HandlesOf(m1) + HandlesOf(r1)
  {
  }

  /** Lines 394-398 of `CreateMesh`, on device `d`: the vertex bytes and then
      the index bytes are copied into the mapped staging buffer `tb`, which
      is then unmapped. */
  method StageMeshData(d: GpuDevice, tb: Ptr, vertexBytes: seq<byte>, indexBytes: seq<byte>)
    requires d.Valid() && d.IsLive(tb)
    requires d.resources[tb.h].TransferBuffer? && d.resources[tb.h].mapped
    requires |d.resources[tb.h].data| == |vertexBytes| + |indexBytes|
    modifies d`resources
    ensures d.Valid()
    ensures d.resources == old(d.resources)[tb.h := TransferBuffer(vertexBytes + indexBytes, false)]
  {
    ghost var junk := d.resources[tb.h].data;
    d.WriteTransfer(tb, 0, vertexBytes);
    d.WriteTransfer(tb, |vertexBytes|, indexBytes);
    StagingLayout(junk, vertexBytes, indexBytes);
    d.Unmap(tb);
  }

  /** Lines 400-430 of `CreateMesh`, on device `d`: a command buffer whose
      copy pass uploads the first `|vertexBytes|` staged bytes to `vb` and
      the rest to `ib` is submitted, and `tb` is released. Without a command
      buffer the copy pass is null and nothing is uploaded. */
  method CopyMeshData(d: GpuDevice, vb: Ptr, ib: Ptr, tb: Ptr, vertexBytes: seq<byte>, indexBytes: seq<byte>)
    returns (commandBuffer: Ptr)
    requires d.Valid() && d.IsLive(vb) && d.IsLive(ib) && vb != ib
    requires d.resources[vb.h].Buffer? && |d.resources[vb.h].bytes| == |vertexBytes|
    requires d.resources[ib.h].Buffer? && |d.resources[ib.h].bytes| == |indexBytes|
    requires d.IsLive(tb) && d.resources[tb.h] == TransferBuffer(vertexBytes + indexBytes, false)
    modifies d`resources, d`pending, d`nextId, d`log, d`faults
    ensures d.Valid() && old(d.nextId) <= d.nextId && d.pending == old(d.pending) && d.faults == old(d.faults)
    ensures commandBuffer.Addr? ==>
              && d.resources == (old(d.resources)[vb.h := Buffer(old(d.resources[vb.h]).usage, vertexBytes)]
                                                 [ib.h := Buffer(old(d.resources[ib.h]).usage, indexBytes)]) - {tb.h}
              && d.log == old(d.log) + [Submit(commandBuffer)]
    ensures !commandBuffer.Addr? ==> d.resources == old(d.resources) - {tb.h} && d.log == old(d.log)
  {
    var v := |vertexBytes|;
    assert (vertexBytes + indexBytes)[0..v] == vertexBytes;
    assert (vertexBytes + indexBytes)[v..v + |indexBytes|] == indexBytes;
    commandBuffer := d.AcquireCommandBuffer();
    d.Upload(commandBuffer, tb, 0, vb, v);
    if commandBuffer.Addr? {
      UploadFillsBuffer(old(d.resources[vb.h]).bytes, vertexBytes);
    }
    d.Upload(commandBuffer, tb, v, ib, |indexBytes|);
    if commandBuffer.Addr? {
      UploadFillsBuffer(old(d.resources[ib.h]).bytes, indexBytes);
    }
    d.SubmitGPUCommandBuffer(commandBuffer);
    d.Release(tb);
  }

  /** `after` holds no handle `before` did not, and every pipeline of
      either is the same in both. */
  ghost predicate PipelinesKept(before: map<Handle, Resource>, after: map<Handle, Resource>)
  {
    && after.Keys <= before.Keys
    && forall h | h in after :: after[h] == before[h] || (!after[h].Pipeline? && !before[h].Pipeline?)
  }

  /** Lines 386-430 of `CreateMesh` on device `d`, once the staging buffer
      `tb` exists: it is mapped (which may fail, changing nothing), filled,
      unmapped, copied into `vb` and `ib` by a submitted command buffer, and
      released. */
  method UploadThroughStaging(d: GpuDevice, vb: Ptr, ib: Ptr, tb: Ptr, vertexBytes: seq<byte>, indexBytes: seq<byte>)
    returns (mapped: bool, commandBuffer: Ptr)
    requires d.Valid() && d.IsLive(vb) && d.IsLive(ib) && vb != ib
    requires d.resources[vb.h].Buffer? && |d.resources[vb.h].bytes| == |vertexBytes|
    requires d.resources[ib.h].Buffer? && |d.resources[ib.h].bytes| == |indexBytes|
    requires d.IsLive(tb) && d.resources[tb.h].TransferBuffer? && !d.resources[tb.h].mapped
    requires |d.resources[tb.h].data| == |vertexBytes| + |indexBytes|
    modifies d`resources, d`pending, d`nextId, d`log, d`faults
    ensures d.Valid() && old(d.nextId) <= d.nextId && d.pending == old(d.pending) && d.faults == old(d.faults)
    ensures PipelinesKept(old(d.resources), d.resources)
    ensures d.log == old(d.log) + (if commandBuffer.Addr? then [Submit(commandBuffer)] else [])
    ensures !mapped ==> d.resources == old(d.resources) && !commandBuffer.Addr?
    ensures mapped && commandBuffer.Addr? ==>
              d.resources == (old(d.resources)[vb.h := Buffer(old(d.resources[vb.h]).usage, vertexBytes)]
                                              [ib.h := Buffer(old(d.resources[ib.h]).usage, indexBytes)]) - {tb.h}
    ensures mapped && !commandBuffer.Addr? ==> d.resources == old(d.resources) - {tb.h}
  {
    mapped := d.MapTransfer(tb);
    if !mapped {
      return false, Null;
    }
    ghost var staged := TransferBuffer(vertexBytes + indexBytes, false);
    StageMeshData(d, tb, vertexBytes, indexBytes);
    assert d.resources == old(d.resources)[tb.h := staged];
    commandBuffer := CopyMeshData(d, vb, ib, tb, vertexBytes, indexBytes);
    ghost var filled := Buffer(old(d.resources[vb.h]).usage, vertexBytes);
    ghost var indexed := Buffer(old(d.resources[ib.h]).usage, indexBytes);
    OverwrittenThenDropped(old(d.resources), tb.h, staged, vb.h, filled, ib.h, indexed);
    StagedUploadKeepsPipelines(old(d.resources), vb.h, ib.h, tb.h, vertexBytes, indexBytes);
  }

  /** Dropping a key forgets what it held. */
  lemma OverwrittenThenDropped(live: map<Handle, Resource>, k: Handle, v: Resource,
                               a: Handle, x: Resource, b: Handle, y: Resource)
    requires k != a && k != b
    ensures live[k := v] - {k} == live - {k}
    ensures live[k := v][a := x][b := y] - {k} == live[a := x][b := y] - {k}
    ensures k !in live ==> live[k := v] - {k} == live && live[k := v][a := x][b := y] - {k} == live[a := x][b := y]
  {
  }

  /** Filling two buffers and dropping a transfer buffer touches no pipeline. */
  lemma StagedUploadKeepsPipelines(live: map<Handle, Resource>, vb: Handle, ib: Handle, tb: Handle,
                                    vertexBytes: seq<byte>, indexBytes: seq<byte>)
    requires vb in live && ib in live && tb in live
    requires live[vb].Buffer? && live[ib].Buffer? && live[tb].TransferBuffer?
    ensures PipelinesKept(live, live)
    ensures PipelinesKept(live, live - {tb})
    ensures PipelinesKept(live, live[vb := Buffer(live[vb].usage, vertexBytes)][ib := Buffer(live[ib].usage, indexBytes)] - {tb})
  {
  }

  /** Releasing a transfer buffer just created restores what was live, and
      releasing two live buffers drops exactly those two. */
  lemma MeshCleanup(live: map<Handle, Resource>, tb: Ptr, t: Resource, vb: Ptr, ib: Ptr)
    requires tb.Addr? ==> tb.h !in live
    requires vb.Addr? && ib.Addr? && vb.h in live && ib.h in live
    ensures tb.Addr? ==> live[tb.h := t] - {vb.h, ib.h} - {tb.h} == live - {vb.h, ib.h}
    ensures AfterRelease(AfterRelease(live, vb), ib) == live - {vb.h, ib.h}
  {
  }

  /** Two keys that were not live, added and then dropped again. */
  lemma FreshKeysDropped(live: map<Handle, Resource>, a: Handle, x: Resource, b: Handle, y: Resource,
                         x2: Resource, y2: Resource)
    requires a !in live
    ensures live[a := x] - {a} == live
    ensures b !in live && a != b ==> live[a := x][b := y] - {a, b} == live
    ensures a != b ==> live[a := x][b := y][a := x2][b := y2] == live[a := x2][b := y2]
  {
  }

  class Service {
    const host: Host
    var device: GpuDevice?
    var window: Option<Window>
    var sampleCount: SampleCount
    var depthTexture: Ptr
    var msaaTexture: Ptr
    var resolveTexture: Ptr
    /** `mPipelines`: at most one pipeline per name, by construction of a map. */
    var pipelines: map<string, Handle>

    /** A handle of the current device was issued by it already. */
    ghost predicate Issued(h: Handle)
      reads this`device, device
      requires device != null
    {
      h.owner == device ==> h.id < device.nextId
    }

    ghost predicate Valid()
      reads this, device
    {
      DeviceValid() && SlotsValid() && RegistryValid()
    }

    ghost predicate DeviceValid()
      reads this`device, device
    {
      device != null ==> device.Valid() && !device.destroyed
    }

    /** The texture slots hold real pointers, issued by the current device
        when they are its own. */
    ghost predicate SlotsValid()
      reads this`depthTexture, this`msaaTexture, this`resolveTexture, this`device, device
    {
      && !depthTexture.Indeterminate? && !msaaTexture.Indeterminate? && !resolveTexture.Indeterminate?
      && (depthTexture.Addr? ==> depthTexture != msaaTexture && depthTexture != resolveTexture)
      && (msaaTexture.Addr? ==> msaaTexture != resolveTexture)
      && (device != null ==>
            && (depthTexture.Addr? ==> Issued(depthTexture.h))
            && (msaaTexture.Addr? ==> Issued(msaaTexture.h))
            && (resolveTexture.Addr? ==> Issued(resolveTexture.h)))
    }

    /** No two names share a pipeline, and every live pipeline in the registry
        uses the shared vertex layout and the service's sample count. */
    ghost predicate RegistryValid()
      reads this`pipelines, this`sampleCount, this`device, device
    {
      && (forall n, m | n in pipelines && m in pipelines && n != m :: pipelines[n] != pipelines[m])
      && (device != null ==>
            && (forall n | n in pipelines :: Issued(pipelines[n]))
            && (forall n | n in pipelines && pipelines[n] in device.resources ::
                  device.resources[pipelines[n]].Pipeline?
                  && UsesServiceLayout(device.resources[pipelines[n]].pipeline, sampleCount)))
    }

    /** A non-null MSAA or resolve slot means MSAA is on. */
    predicate MsaaSlotsImplyMultisample()
      reads this`msaaTexture, this`resolveTexture, this`sampleCount
    {
      (!msaaTexture.Null? || !resolveTexture.Null?) ==> sampleCount != Samples1
    }

    /** `p` is null, or a live texture of the current device described by `info`. */
    predicate TextureHolds(p: Ptr, info: TextureInfo)
      reads this`device, device
    {
      p.Null? || (device != null && device.IsLive(p) && device.resources[p.h] == Texture(info))
    }

    /** A live pipeline that no name in the registry refers to any more. */
    predicate Leaked(h: Handle)
      reads this, device
    {
      device != null && h in device.resources && device.resources[h].Pipeline? && h !in pipelines.Values
    }

    function SlotHandles(): set<Handle>
      reads this`depthTexture, this`msaaTexture, this`resolveTexture
    {
      HandlesOf(depthTexture) + HandlesOf(msaaTexture) + HandlesOf(resolveTexture)
    }

    /** `SDL_GetGPUSwapchainTextureFormat(mDevice, window)`; invalid without a device. */
    function SwapchainFormat(): TextureFormat
      reads this`device
    {
      if device == null then InvalidFormat else device.swapchainFormat
    }

    /** Nothing entered the command stream and no command buffer was acquired. */
    twostate predicate StreamKept()
      reads this`device, device
    {
      device == old(device)
      && (device != null ==>
            && device.log == old(device.log) && device.pending == old(device.pending)
            && device.claimed == old(device.claimed) && device.destroyed == old(device.destroyed)
            && old(device.nextId) <= device.nextId)
    }

    /** The effect of one `SDL_CreateGPU*` call through `mDevice` yielding `p`. */
    twostate predicate Created(new p: Ptr, r: Resource)
      reads this`device, device
    {
      && device == old(device)
      && (device == null ==> p.Null?)
      && (device != null ==>
            && device.faults == old(device.faults)
            && (p.Null? ==> device.resources == old(device.resources) && device.nextId == old(device.nextId))
            && (!p.Null? ==> p == Addr(Handle(device, old(device.nextId)))
                             && device.resources == old(device.resources)[p.h := r]))
    }

    /** The effect of one `SDL_ReleaseGPU*(mDevice, p)` call. */
    twostate predicate ReleasedOne(p: Ptr)
      reads this`device, device
    {
      device == old(device)
      && (device != null ==>
            && device.resources == AfterRelease(old(device.resources), p)
            && device.faults == FaultsAfterRelease(old(device.resources), old(device.faults), p)
            && device.nextId == old(device.nextId))
    }

    /** The zero-initialised static instance. */
    constructor (host: Host)
      ensures this.host == host && device == null && window == None && sampleCount == Samples1
      ensures depthTexture == Null && msaaTexture == Null && resolveTexture == Null && pipelines == map[]
      ensures Valid() && MsaaSlotsImplyMultisample()
    {
      this.host := host;
      device, window, sampleCount := null, None, Samples1;
      depthTexture, msaaTexture, resolveTexture := Null, Null, Null;
      pipelines := map[];
    }

    // ------------------------------------------------------- device calls

    method CreateOn(r: Resource) returns (p: Ptr)
      requires Valid()
      modifies device
      ensures Valid() && StreamKept() && Created(p, r)
    {
      if device == null {
        p := Null;
      } else {
        p := device.Create(r);
      }
    }

    method ReleaseOn(p: Ptr)
      requires Valid()
      modifies device
      ensures Valid() && StreamKept() && ReleasedOne(p)
    {
      if device != null {
        device.Release(p);
      }
    }

    // ----------------------------------------------------------- textures

    /** `CreateDepthTexture`: D16, depth-stencil target, the service's sample count. */
    method CreateDepthTexture(width: u32, height: u32) returns (t: Ptr)
      requires Valid()
      modifies device
      ensures Valid() && StreamKept() && Created(t, Texture(DepthTextureInfo(width, height, sampleCount)))
    {
      t := CreateOn(Texture(DepthTextureInfo(width, height, sampleCount)));
    }

    /** `CreateMSAATexture`: swapchain format, colour target, the service's sample count. */
    method CreateMSAATexture(width: u32, height: u32) returns (t: Ptr)
      requires Valid()
      modifies device
      ensures Valid() && StreamKept() && Created(t, Texture(MsaaTextureInfo(SwapchainFormat(), width, height, sampleCount)))
    {
      t := CreateOn(Texture(MsaaTextureInfo(SwapchainFormat(), width, height, sampleCount)));
    }

    /** `CreateResolveTexture`: swapchain format, colour target and sampler, one sample. */
    method CreateResolveTexture(width: u32, height: u32) returns (t: Ptr)
      requires Valid()
      modifies device
      ensures Valid() && StreamKept() && Created(t, Texture(ResolveTextureInfo(SwapchainFormat(), width, height)))
    {
      t := CreateOn(Texture(ResolveTextureInfo(SwapchainFormat(), width, height)));
    }

    /** `DestroyTexture`: releases a non-null texture. */
    method DestroyTexture(t: Ptr)
      requires Valid()
      modifies device
      ensures Valid() && StreamKept() && ReleasedOne(t)
    {
      if !t.Null? {
        ReleaseOn(t);
      }
    }

    /** One slot of `SetViewport`, from `before` to `after`: a null slot stays
        null; a non-null one is released and replaced by null or by a texture
        newly issued by the device. */
    twostate predicate SlotReplaced(before: Ptr, new after: Ptr, info: TextureInfo)
      reads this`device, device
    {
      && device == old(device)
      && (before.Null? ==> after.Null?)
      && !after.Indeterminate?
      && (after.Addr? ==> device != null && after.h.owner == device && old(device.nextId) <= after.h.id < device.nextId)
      && (device != null ==>
            && device.resources == Replaced(old(device.resources), before, after, info)
            && device.faults == FaultsAfterRelease(old(device.resources), old(device.faults), before))
    }

    /** Lines 139-142 of `SetViewport`. */
    method ResizeDepth(width: u32, height: u32)
      requires Valid()
      modifies this`depthTexture, device
      ensures Valid() && StreamKept()
      ensures SlotReplaced(old(depthTexture), depthTexture, DepthTextureInfo(width, height, sampleCount))
    {
      if !depthTexture.Null? {
        DestroyTexture(depthTexture);
        depthTexture := CreateDepthTexture(width, height);
      }
    }

    /** Lines 144-147 of `SetViewport`. */
    method ResizeMsaa(width: u32, height: u32)
      requires Valid()
      modifies this`msaaTexture, device
      ensures Valid() && StreamKept()
      ensures SlotReplaced(old(msaaTexture), msaaTexture, MsaaTextureInfo(SwapchainFormat(), width, height, sampleCount))
    {
      if !msaaTexture.Null? {
        DestroyTexture(msaaTexture);
        msaaTexture := CreateMSAATexture(width, height);
      }
    }

    /** Lines 149-152 of `SetViewport`. */
    method ResizeResolve(width: u32, height: u32)
      requires Valid()
      modifies this`resolveTexture, device
      ensures Valid() && StreamKept()
      ensures SlotReplaced(old(resolveTexture), resolveTexture, ResolveTextureInfo(SwapchainFormat(), width, height))
    {
      if !resolveTexture.Null? {
        DestroyTexture(resolveTexture);
        resolveTexture := CreateResolveTexture(width, height);
      }
    }

    /** `SetViewport`: each non-null slot is released and re-created at the new
        size; a null slot stays null. */
    method SetViewport(width: u32, height: u32)
      requires Valid()
      modifies this`depthTexture, this`msaaTexture, this`resolveTexture, device
      ensures Valid() && StreamKept()
      ensures old(depthTexture).Null? ==> depthTexture.Null?
      ensures old(msaaTexture).Null? ==> msaaTexture.Null?
      ensures old(resolveTexture).Null? ==> resolveTexture.Null?
      ensures device != null ==>
                device.resources ==
                  Replaced(Replaced(Replaced(old(device.resources),
                    old(depthTexture), depthTexture, DepthTextureInfo(width, height, sampleCount)),
                    old(msaaTexture), msaaTexture, MsaaTextureInfo(SwapchainFormat(), width, height, sampleCount)),
                    old(resolveTexture), resolveTexture, ResolveTextureInfo(SwapchainFormat(), width, height))
      ensures device != null ==>
                ResizeFresh(old(device.resources), device, old(device.nextId),
                  old(depthTexture), depthTexture, old(msaaTexture), msaaTexture, old(resolveTexture), resolveTexture)
      ensures old(MsaaSlotsImplyMultisample()) ==> MsaaSlotsImplyMultisample()
    {
      ResizeDepth(width, height);
      ResizeMsaa(width, height);
      ResizeResolve(width, height);
    }

    // ---------------------------------------------------------- pipelines

    /** `CreatePipeline`: a pipeline over the shared vertex layout, the
        service's sample count and the swapchain format. On failure the
        registry is unchanged; on success `name` maps to the new pipeline and
        a pipeline it mapped before is not released. */
    method CreatePipeline(name: string, vs: Ptr, fs: Ptr) returns (ok: bool)
      requires Valid()
      modifies this`pipelines, device
      ensures Valid() && StreamKept()
      ensures !ok ==> pipelines == old(pipelines) && Created(Null, Pipeline(PipelineInfoFor(vs, fs, sampleCount, SwapchainFormat())))
      ensures ok ==> name in pipelines && pipelines == old(pipelines)[name := pipelines[name]]
      ensures ok ==> Created(Addr(pipelines[name]), Pipeline(PipelineInfoFor(vs, fs, sampleCount, SwapchainFormat())))
      ensures ok && name in old(pipelines) && old(device.IsLive(Addr(pipelines[name]))) ==> Leaked(old(pipelines[name]))
    {
      var p := CreateOn(Pipeline(PipelineInfoFor(vs, fs, sampleCount, SwapchainFormat())));
      if p.Null? {
        return false;
      }
      PipelineInfoUsesServiceLayout(vs, fs, sampleCount, SwapchainFormat());
      pipelines := pipelines[name := p.h];
      ok := true;
    }

    /** `DestroyPipeline`: releases and erases exactly the named entry; an
        absent name changes nothing. */
    method DestroyPipeline(name: string)
      requires Valid()
      modifies this`pipelines, device
      ensures Valid() && StreamKept()
      ensures pipelines == old(pipelines) - {name}
      ensures name in old(pipelines) ==> ReleasedOne(Addr(old(pipelines[name])))
      ensures name !in old(pipelines) ==> ReleasedOne(Null)
    {
      if name in pipelines {
        ReleaseOn(Addr(pipelines[name]));
        pipelines := pipelines - {name};
      }
    }

    /** `UsePipeline`: binds the named pipeline on `pass`; an unknown name
        binds nothing. */
    method UsePipeline(pass: Ptr, name: string)
      requires Valid() && device != null
      modifies device`log
      ensures Valid()
      ensures name in pipelines ==> device.log == old(device.log) + [BindPipeline(pass, Addr(pipelines[name]))]
      ensures name !in pipelines ==> device.log == old(device.log)
    {
      if name in pipelines {
        device.Record(BindPipeline(pass, Addr(pipelines[name])));
      }
    }

    // ------------------------------------------------------------ shaders

    /** `CreateShader`: SPIR-V compiled for the device from the first
        `codeSize` bytes of `code`, with the given resource counts; null on failure. */
    method CreateShader(stage: ShaderStage, code: seq<byte>, codeSize: nat,
                        samplers: u32, uniformBuffers: u32, storageBuffers: u32, storageTextures: u32) returns (s: Ptr)
      requires codeSize <= |code|
      requires Valid()
      modifies device
      ensures Valid() && StreamKept()
      ensures Created(s, Shader(ShaderInfo(stage, code[..codeSize], samplers, uniformBuffers, storageBuffers, storageTextures)))
    {
      s := CreateOn(Shader(ShaderInfo(stage, code[..codeSize], samplers, uniformBuffers, storageBuffers, storageTextures)));
    }

    /** `DestroyShader`: releases a non-null shader. */
    method DestroyShader(s: Ptr)
      requires Valid()
      modifies device
      ensures Valid() && StreamKept() && ReleasedOne(s)
    {
      if !s.Null? {
        ReleaseOn(s);
      }
    }

    // ----------------------------------------------------------- shutdown

    /** `Shutdown`: releases the three slots and every registered pipeline,
        then gives the window back and destroys the device. Only the device
        field is reset; the slots and the registry keep their stale handles. */
    method Shutdown()
      requires Valid()
      modifies this`device, device
      ensures Valid() && device == null
      ensures old(device) != null ==>
                && old(device).destroyed && !old(device).claimed
                && old(device).resources == old(device.resources) - SlotHandles() - pipelines.Values
      ensures old(device) != null ==> old(device).log == old(device.log) && old(device).pending == old(device.pending)
    {
      var d := device;
      if d != null {
        ReleaseSlots(d);
        ReleasePipelines(d);
        d.ReleaseWindow();
        d.Destroy();
        device := null;
      }
    }

    /** The first three releases of `Shutdown`, through `d`. */
    method ReleaseSlots(d: GpuDevice)
      requires d.Valid()
      modifies d`resources, d`faults
      ensures d.Valid()
      ensures d.resources == old(d.resources) - SlotHandles()
    {
      d.Release(depthTexture);
      d.Release(msaaTexture);
      d.Release(resolveTexture);
    }

    /** The loop of `Shutdown` over the registry, releasing each pipeline
        through `d`, in no particular order. */
    method ReleasePipelines(d: GpuDevice)
      requires d.Valid()
      modifies d`resources, d`faults
      ensures d.Valid()
      ensures d.resources == old(d.resources) - pipelines.Values
    {
      var names := pipelines.Keys;
      ghost var done: set<string> := {};
      while names != {}
        invariant d.Valid()
        invariant names + done == pipelines.Keys && names !! done
        invariant d.resources == old(d.resources) - (set n | n in done :: pipelines[n])
        decreases names
      {
        var n :| n in names;
        d.Release(Addr(pipelines[n]));
        names, done := names - {n}, done + {n};
      }
      assert (set n | n in done :: pipelines[n]) == pipelines.Values;
    }

    // --------------------------------------------------------- initialise

    /** Lines 25-50 of `Initialize`: a new device (the field takes whatever
        `SDL_CreateGPUDevice` returned, and a previous device is simply
        dropped), the window claimed for it, and the sample count chosen. */
    method OpenDevice(w: Window) returns (ok: bool)
      requires Valid()
      modifies this`window, this`device, this`sampleCount
      ensures Valid() && window == Some(w)
      ensures device != null ==> fresh(device) && device.Valid() && device.resources == map[]
      ensures device != null ==> device.pending == {} && device.log == [] && device.faults == [] && !device.destroyed
      ensures ok ==> device != null && device.claimed && sampleCount == ChooseSampleCount(device.supportsMsaa4)
      ensures !ok ==> sampleCount == old(sampleCount)
    {
      window := Some(w);
      device := CreateDevice();
      if device == null {
        return false;
      }
      ok := device.ClaimWindow();
      if !ok {
        return;
      }
      sampleCount := ChooseSampleCount(device.supportsMsaa4);
    }

    /** Lines 52-61 of `Initialize`: the depth texture, which must exist, then
        the MSAA and resolve textures when multisampling, which may fail. */
    method CreateTargets(width: u32, height: u32) returns (ok: bool)
      requires Valid() && device != null
      modifies this`depthTexture, this`msaaTexture, this`resolveTexture, device
      ensures Valid() && StreamKept() && device.faults == old(device.faults)
      ensures ok <==> !depthTexture.Null?
      ensures TextureHolds(depthTexture, DepthTextureInfo(width, height, sampleCount))
      ensures ok && sampleCount != Samples1 ==>
                && TextureHolds(msaaTexture, MsaaTextureInfo(SwapchainFormat(), width, height, sampleCount))
                && TextureHolds(resolveTexture, ResolveTextureInfo(SwapchainFormat(), width, height))
      ensures !(ok && sampleCount != Samples1) ==> msaaTexture == old(msaaTexture) && resolveTexture == old(resolveTexture)
      ensures !ok ==> device.resources == old(device.resources)
      ensures ok && sampleCount == Samples1 ==>
                device.resources == Added(old(device.resources), depthTexture, Texture(DepthTextureInfo(width, height, sampleCount)))
      ensures ok && sampleCount != Samples1 ==>
                device.resources ==
                  Added(Added(Added(old(device.resources), depthTexture, Texture(DepthTextureInfo(width, height, sampleCount))),
                    msaaTexture, Texture(MsaaTextureInfo(SwapchainFormat(), width, height, sampleCount))),
                    resolveTexture, Texture(ResolveTextureInfo(SwapchainFormat(), width, height)))
    {
      depthTexture := CreateDepthTexture(width, height);
      if depthTexture.Null? {
        return false;
      }
      if sampleCount != Samples1 {
        CreateMultisampleTargets(width, height);
      }
      ok := true;
    }

    /** Lines 59-60 of `Initialize`: the MSAA and the resolve texture, either
        of which may come back null. */
    method CreateMultisampleTargets(width: u32, height: u32)
      requires Valid() && device != null && !depthTexture.Null?
      modifies this`msaaTexture, this`resolveTexture, device
      ensures Valid() && StreamKept() && device.faults == old(device.faults)
      ensures TextureHolds(msaaTexture, MsaaTextureInfo(SwapchainFormat(), width, height, sampleCount))
      ensures TextureHolds(resolveTexture, ResolveTextureInfo(SwapchainFormat(), width, height))
      ensures device.resources ==
                Added(Added(old(device.resources), msaaTexture, Texture(MsaaTextureInfo(SwapchainFormat(), width, height, sampleCount))),
                      resolveTexture, Texture(ResolveTextureInfo(SwapchainFormat(), width, height)))
    {
      msaaTexture := CreateMSAATexture(width, height);
      resolveTexture := CreateResolveTexture(width, height);
    }

    /** Lines 63-80 (and 82-99) of `Initialize`: a vertex shader with one
        uniform buffer and a fragment shader with `fragmentUniforms`, a
        pipeline `name` over them, and both shaders released again. The
        result of `CreatePipeline` is not checked. */
    method CreateBuiltinPipeline(name: string, vert: seq<byte>, vertSize: nat, frag: seq<byte>, fragSize: nat,
                                 fragmentUniforms: u32) returns (ok: bool, vs: Ptr, fs: Ptr)
      requires vertSize <= |vert| && fragSize <= |frag|
      requires Valid() && device != null
      modifies this`pipelines, device
      ensures Valid() && StreamKept() && device.faults == old(device.faults)
      ensures !ok ==> pipelines == old(pipelines)
      ensures ok ==> name in pipelines && pipelines == old(pipelines)[name := pipelines[name]]
      ensures device.resources == Added(old(device.resources), if ok then Addr(pipelines[name]) else Null,
                                        Pipeline(PipelineInfoFor(vs, fs, sampleCount, SwapchainFormat())))
      ensures ok ==> pipelines[name] !in old(device.resources) && !device.IsLive(vs) && !device.IsLive(fs)
    {
      vs := CreateShader(VertexStage, vert, vertSize, 0, 1, 0, 0);
      fs := CreateShader(FragmentStage, frag, fragSize, 0, fragmentUniforms, 0, 0);
      ok := CreatePipeline(name, vs, fs);
      assert vs.Addr? ==> vs.h in device.resources;
      ReleaseOn(vs);
      assert fs.Addr? ==> fs.h in device.resources;
      ReleaseOn(fs);
      ShadersReleasedAfterPipeline(old(device.resources),
        vs, Shader(ShaderInfo(VertexStage, vert[..vertSize], 0, 1, 0, 0)),
        fs, Shader(ShaderInfo(FragmentStage, frag[..fragSize], 0, fragmentUniforms, 0, 0)),
        if ok then Addr(pipelines[name]) else Null, Pipeline(PipelineInfoFor(vs, fs, sampleCount, SwapchainFormat())));
    }

    /** `Initialize`: a new device for the window, the sample count (4 when
        the swapchain format supports it, else 1), the frame's targets at the
        window size, and the two built-in pipelines from the compiled-in
        shader headers. False when there is no device, the window cannot be
        claimed or the depth texture cannot be created; a failed pipeline
        does not make it fail. */
    method Initialize(w: Window, width: u32, height: u32, headers: HeaderSymbols) returns (ok: bool)
      requires Valid() && DeclaresServiceShaders(headers)
      modifies this`window, this`device, this`sampleCount, this`depthTexture, this`msaaTexture, this`resolveTexture, this`pipelines
      ensures Valid() && window == Some(w)
      ensures device != null ==> fresh(device)
      ensures ok ==> device != null && device.claimed && device.pending == {} && device.log == [] && device.faults == []
      ensures ok ==> (sampleCount == Samples4 <==> device.supportsMsaa4) && (sampleCount == Samples1 <==> !device.supportsMsaa4)
      ensures ok ==> !depthTexture.Null? && TextureHolds(depthTexture, DepthTextureInfo(width, height, sampleCount))
      ensures ok && sampleCount != Samples1 ==>
                && TextureHolds(msaaTexture, MsaaTextureInfo(SwapchainFormat(), width, height, sampleCount))
                && TextureHolds(resolveTexture, ResolveTextureInfo(SwapchainFormat(), width, height))
      ensures ok && sampleCount == Samples1 ==> msaaTexture == old(msaaTexture) && resolveTexture == old(resolveTexture)
      ensures ok && old(msaaTexture).Null? && old(resolveTexture).Null? ==> MsaaSlotsImplyMultisample()
      ensures forall n | n in pipelines && n !in BuiltinPipelines :: n in old(pipelines) && pipelines[n] == old(pipelines)[n]
      ensures forall n | n in old(pipelines) :: n in pipelines
      ensures ok ==> forall h | h in device.resources :: OwnedByService(h)
    {
      ok := OpenDevice(w);
      if !ok {
        return;
      }
      ok := CreateDeviceObjects(width, height, headers);
    }

    /** A live object the service holds: one of its texture slots or a
        built-in pipeline. */
    predicate OwnedByService(h: Handle)
      reads this`depthTexture, this`msaaTexture, this`resolveTexture, this`pipelines
    {
      h in SlotHandles() || (exists n | n in BuiltinPipelines :: n in pipelines && h == pipelines[n])
    }

    /** Lines 52-99 of `Initialize`, on the device just opened. */
    method CreateDeviceObjects(width: u32, height: u32, headers: HeaderSymbols) returns (ok: bool)
      requires Valid() && DeclaresServiceShaders(headers) && device != null
      modifies this`depthTexture, this`msaaTexture, this`resolveTexture, this`pipelines, device
      ensures Valid() && StreamKept() && device.faults == old(device.faults)
      ensures ok ==> !depthTexture.Null? && TextureHolds(depthTexture, DepthTextureInfo(width, height, sampleCount))
      ensures ok && sampleCount != Samples1 ==>
                && TextureHolds(msaaTexture, MsaaTextureInfo(SwapchainFormat(), width, height, sampleCount))
                && TextureHolds(resolveTexture, ResolveTextureInfo(SwapchainFormat(), width, height))
      ensures !(ok && sampleCount != Samples1) ==> msaaTexture == old(msaaTexture) && resolveTexture == old(resolveTexture)
      ensures forall n | n in pipelines && n !in BuiltinPipelines :: n in old(pipelines) && pipelines[n] == old(pipelines)[n]
      ensures forall n | n in old(pipelines) :: n in pipelines
      ensures ok ==> forall h | h in device.resources && h !in old(device.resources) :: OwnedByService(h)
    {
      ok := CreateTargets(width, height);
      if !ok {
        return;
      }
      CreateDefaultPipelines(headers);
    }

    /** Lines 63-99 of `Initialize`: the `default_mesh` and `light_source`
        pipelines, each from its two shaders. */
    method CreateDefaultPipelines(headers: HeaderSymbols)
      requires Valid() && DeclaresServiceShaders(headers) && device != null
      modifies this`pipelines, device
      ensures Valid() && StreamKept() && device.faults == old(device.faults)
      ensures forall n | n in pipelines && n !in BuiltinPipelines :: n in old(pipelines) && pipelines[n] == old(pipelines)[n]
      ensures forall n | n in old(pipelines) :: n in pipelines
      ensures forall h | h in old(device.resources) :: h in device.resources && device.resources[h] == old(device.resources)[h]
      ensures forall h | h in device.resources && h !in old(device.resources) ::
                exists n | n in BuiltinPipelines :: n in pipelines && h == pipelines[n]
    {
      var meshOk, _, _ := CreateBuiltinPipeline(DefaultMesh,
        headers.arrays[BasicTriangleVert], headers.sizes[BasicTriangleVert + SizeSuffix],
        headers.arrays[BasicTriangleFrag], headers.sizes[BasicTriangleFrag + SizeSuffix], 2);
      ghost var mesh := if meshOk then Addr(pipelines[DefaultMesh]) else Null;
      var lightOk, _, _ := CreateBuiltinPipeline(LightSource,
        headers.arrays[LightSourceVert], headers.sizes[LightSourceVert + SizeSuffix],
        headers.arrays[LightSourceFrag], headers.sizes[LightSourceFrag + SizeSuffix], 0);
      assert meshOk ==> DefaultMesh in pipelines && mesh == Addr(pipelines[DefaultMesh]);
      assert DefaultMesh in BuiltinPipelines && LightSource in BuiltinPipelines;
    }

    // ------------------------------------------------------------- meshes

    /** `DestroyMesh`: null is ignored; otherwise each non-null buffer pointer
        is released (garbage in a field is released too, and the device
        reports it) and the block is freed. */
    method DestroyMesh(mesh: MeshHandle?)
      requires Valid()
      modifies device, host`blocks, host`badFrees
      ensures Valid() && StreamKept()
      ensures mesh == null ==> ReleasedOne(Null) && host.blocks == old(host.blocks) && host.badFrees == old(host.badFrees)
      ensures mesh != null ==> BuffersReleased(mesh.vertexBuffer, mesh.indexBuffer)
      ensures mesh != null ==> host.blocks == old(host.blocks) - {mesh}
      ensures mesh != null ==> host.badFrees == old(host.badFrees) + (if mesh in old(host.blocks) then 0 else 1)
    {
      if mesh != null {
        ReleaseMeshBuffers(mesh.vertexBuffer, mesh.indexBuffer);
        host.Free(mesh);
      }
    }

    /** The device after releasing `vb` and then `ib`. */
    twostate predicate BuffersReleased(vb: Ptr, ib: Ptr)
      reads this`device, device
    {
      device == old(device)
      && (device != null ==>
            && device.resources == AfterRelease(AfterRelease(old(device.resources), vb), ib)
            && device.faults ==
                 FaultsAfterRelease(AfterRelease(old(device.resources), vb),
                   FaultsAfterRelease(old(device.resources), old(device.faults), vb), ib)
            && device.nextId == old(device.nextId))
    }

    /** Lines 437-443 of `DestroyMesh`. */
    method ReleaseMeshBuffers(vb: Ptr, ib: Ptr)
      requires Valid()
      modifies device
      ensures Valid() && StreamKept() && BuffersReleased(vb, ib)
    {
      if !vb.Null? {
        ReleaseOn(vb);
      }
      if !ib.Null? {
        ReleaseOn(ib);
      }
    }

    /** `CreateMesh`: a heap block for the handle, a vertex buffer of
        `vertexSize` bytes and an index buffer of `indexSize` bytes (requested
        even when `indexSize` is 0), then one staging upload of both. Null on
        any allocation or map failure, with everything created so far
        released; when the vertex buffer fails, the garbage index pointer is
        released as well. A mesh is returned even when no command buffer
        could be acquired, and then its buffers hold whatever they held. */
    method CreateMesh(vertexData: seq<byte>, vertexSize: u32, vertexCount: u32,
                      indexData: seq<byte>, indexSize: u32, indexCount: u32) returns (mesh: MeshHandle?, ghost outcome: MeshOutcome)
      requires Valid()
      requires vertexSize as nat <= |vertexData| && indexSize as nat <= |indexData|
      requires vertexSize as nat + indexSize as nat < U32Limit
      modifies device, host`blocks, host`badFrees
      ensures Valid() && device == old(device)
      ensures mesh == null <==> !(outcome.Uploaded? || outcome.NotUploaded?)
      ensures device == null ==> outcome.MeshNoMemory? || outcome.NoVertexBuffer?
      ensures mesh == null ==> host.blocks == old(host.blocks) && host.badFrees == old(host.badFrees)
      ensures mesh == null && device != null ==>
                && device.resources == old(device.resources)
                && device.log == old(device.log) && device.pending == old(device.pending)
      ensures outcome.NoVertexBuffer? && device != null ==> device.faults == old(device.faults) + [ReleasedUnknown(Indeterminate)]
      ensures !outcome.NoVertexBuffer? && device != null ==> device.faults == old(device.faults)
      ensures mesh != null ==>
                && fresh(mesh) && host.blocks == old(host.blocks) + {mesh} && host.badFrees == old(host.badFrees)
                && mesh.vertexSize == vertexSize && mesh.vertexCount == vertexCount
                && mesh.indexSize == indexSize && mesh.indexCount == indexCount
      ensures mesh != null ==> MeshBuffersAdded(mesh.vertexBuffer, mesh.indexBuffer, vertexSize as nat, indexSize as nat)
      ensures outcome.Uploaded? ==>
                && device.resources[mesh.vertexBuffer.h] == Buffer(VertexUsage, vertexData[..vertexSize])
                && device.resources[mesh.indexBuffer.h] == Buffer(IndexUsage, indexData[..indexSize])
      ensures outcome.Uploaded? ==> |device.log| == |old(device.log)| + 1 && device.log[..|old(device.log)|] == old(device.log)
      ensures outcome.Uploaded? ==> device.log[|old(device.log)|].Submit? && device.pending == old(device.pending)
      ensures outcome.NotUploaded? ==> device.log == old(device.log) && device.pending == old(device.pending)
    {
      mesh := new MeshHandle();
      var ok := host.Malloc(mesh);
      if !ok {
        return null, MeshNoMemory;
      }
      mesh.vertexSize, mesh.vertexCount := vertexSize, vertexCount;
      mesh.indexSize, mesh.indexCount := indexSize, indexCount;
      ok, outcome := BuildMesh(mesh, vertexData, indexData);
      if !ok {
        mesh := null;
      }
    }

    /** Lines 349-432 of `CreateMesh`, once the handle is allocated and its
        sizes set: on failure the handle is freed and nothing else remains. */
    method BuildMesh(mesh: MeshHandle, vertexData: seq<byte>, indexData: seq<byte>) returns (ok: bool, ghost outcome: MeshOutcome)
      requires Valid() && mesh in host.blocks
      requires mesh.vertexBuffer.Indeterminate? && mesh.indexBuffer.Indeterminate?
      requires mesh.vertexSize as nat <= |vertexData| && mesh.indexSize as nat <= |indexData|
      requires mesh.vertexSize as nat + mesh.indexSize as nat < U32Limit
      modifies device, mesh`vertexBuffer, mesh`indexBuffer, host`blocks, host`badFrees
      ensures Valid() && device == old(device)
      ensures ok <==> outcome.Uploaded? || outcome.NotUploaded?
      ensures !outcome.MeshNoMemory?
      ensures device == null ==> outcome.NoVertexBuffer?
      ensures !ok ==> host.blocks == old(host.blocks) - {mesh} && host.badFrees == old(host.badFrees)
      ensures !ok && device != null ==>
                && device.resources == old(device.resources)
                && device.log == old(device.log) && device.pending == old(device.pending)
      ensures outcome.NoVertexBuffer? && device != null ==> device.faults == old(device.faults) + [ReleasedUnknown(Indeterminate)]
      ensures !outcome.NoVertexBuffer? && device != null ==> device.faults == old(device.faults)
      ensures ok ==> host.blocks == old(host.blocks) && host.badFrees == old(host.badFrees)
      ensures ok ==> MeshBuffersAdded(mesh.vertexBuffer, mesh.indexBuffer, mesh.vertexSize as nat, mesh.indexSize as nat)
      ensures outcome.Uploaded? ==>
                && device.resources[mesh.vertexBuffer.h] == Buffer(VertexUsage, vertexData[..mesh.vertexSize])
                && device.resources[mesh.indexBuffer.h] == Buffer(IndexUsage, indexData[..mesh.indexSize])
      ensures outcome.Uploaded? ==> |device.log| == |old(device.log)| + 1 && device.log[..|old(device.log)|] == old(device.log)
      ensures outcome.Uploaded? ==> device.log[|old(device.log)|].Submit? && device.pending == old(device.pending)
      ensures outcome.NotUploaded? ==> device.log == old(device.log) && device.pending == old(device.pending)
    {
      ok := CreateVertexBuffer(mesh);
      if !ok {
        return false, NoVertexBuffer;
      }
      ghost var withVertices := device.resources;
      ok := CreateIndexBuffer(mesh);
      if !ok {
        FreshKeysDropped(old(device.resources), mesh.vertexBuffer.h, withVertices[mesh.vertexBuffer.h],
          mesh.vertexBuffer.h, Buffer(IndexUsage, []), Buffer(VertexUsage, []), Buffer(IndexUsage, []));
        return false, NoIndexBuffer;
      }
      ghost var vb, ib := mesh.vertexBuffer.h, mesh.indexBuffer.h;
      FreshKeysDropped(old(device.resources), vb, withVertices[vb], ib, device.resources[ib],
        Buffer(VertexUsage, vertexData[..mesh.vertexSize]), Buffer(IndexUsage, indexData[..mesh.indexSize]));
      ok, outcome := UploadMesh(mesh, vertexData, indexData);
    }

    /** Lines 349-359 of `CreateMesh`: a vertex buffer of the size the mesh
        records, its contents undefined; on failure the mesh is destroyed,
        garbage index pointer included. */
    method CreateVertexBuffer(mesh: MeshHandle) returns (ok: bool)
      requires Valid() && mesh in host.blocks
      requires mesh.vertexBuffer.Indeterminate? && mesh.indexBuffer.Indeterminate?
      modifies device, mesh`vertexBuffer, host`blocks, host`badFrees
      ensures Valid() && StreamKept()
      ensures ok ==> BufferAdded(mesh.vertexBuffer, VertexUsage, mesh.vertexSize as nat)
      ensures ok ==> host.blocks == old(host.blocks) && host.badFrees == old(host.badFrees)
      ensures !ok ==> mesh.vertexBuffer.Null? && host.blocks == old(host.blocks) - {mesh} && host.badFrees == old(host.badFrees)
      ensures !ok && device != null ==>
                device.resources == old(device.resources) && device.faults == old(device.faults) + [ReleasedUnknown(Indeterminate)]
    {
      assert |seq(mesh.vertexSize as nat, _ => 0 as byte)| == mesh.vertexSize as nat;
      var bytes: seq<byte> :| |bytes| == mesh.vertexSize as nat;
      mesh.vertexBuffer := CreateOn(Buffer(VertexUsage, bytes));
      ok := !mesh.vertexBuffer.Null?;
      if !ok {
        DestroyMesh(mesh);
      }
    }

    /** Lines 361-370 of `CreateMesh`: an index buffer of the size the mesh
        records (requested even for size 0), its contents undefined; on
        failure the mesh is destroyed, its vertex buffer released. */
    method CreateIndexBuffer(mesh: MeshHandle) returns (ok: bool)
      requires Valid() && mesh in host.blocks
      requires device != null && device.IsLive(mesh.vertexBuffer) && device.resources[mesh.vertexBuffer.h].Buffer?
      requires mesh.indexBuffer.Indeterminate?
      modifies device, mesh`indexBuffer, host`blocks, host`badFrees
      ensures Valid() && StreamKept()
      ensures ok ==> BufferAdded(mesh.indexBuffer, IndexUsage, mesh.indexSize as nat)
      ensures ok ==> host.blocks == old(host.blocks) && host.badFrees == old(host.badFrees)
      ensures !ok ==> mesh.indexBuffer.Null? && host.blocks == old(host.blocks) - {mesh} && host.badFrees == old(host.badFrees)
      ensures !ok ==> device.resources == old(device.resources) - {mesh.vertexBuffer.h} && device.faults == old(device.faults)
    {
      assert |seq(mesh.indexSize as nat, _ => 0 as byte)| == mesh.indexSize as nat;
      var bytes: seq<byte> :| |bytes| == mesh.indexSize as nat;
      mesh.indexBuffer := CreateOn(Buffer(IndexUsage, bytes));
      ok := !mesh.indexBuffer.Null?;
      if !ok {
        DestroyMesh(mesh);
      }
    }

    /** One new buffer `p` of `size` bytes for `usage`, alive beside
        everything that was. */
    twostate predicate BufferAdded(new p: Ptr, usage: BufferUsage, size: nat)
      reads this`device, device
    {
      && device == old(device) && device != null
      && p.Addr? && p.h.owner == device && p.h !in old(device.resources) && p.h in device.resources
      && device.resources[p.h].Buffer? && device.resources[p.h].usage == usage
      && |device.resources[p.h].bytes| == size
      && device.resources == old(device.resources)[p.h := device.resources[p.h]]
      && device.faults == old(device.faults)
    }

    /** Two new buffers, `vb` of `v` bytes for vertices and `ib` of `i` bytes
        for indices, are alive beside everything that was. */
    twostate predicate MeshBuffersAdded(new vb: Ptr, new ib: Ptr, v: nat, i: nat)
      reads this`device, device
    {
      && device != null && device == old(device)
      && vb.Addr? && ib.Addr? && vb != ib
      && vb.h !in old(device.resources) && ib.h !in old(device.resources)
      && vb.h in device.resources && device.resources[vb.h].Buffer?
      && device.resources[vb.h].usage == VertexUsage && |device.resources[vb.h].bytes| == v
      && ib.h in device.resources && device.resources[ib.h].Buffer?
      && device.resources[ib.h].usage == IndexUsage && |device.resources[ib.h].bytes| == i
      && device.resources == old(device.resources)[vb.h := device.resources[vb.h]][ib.h := device.resources[ib.h]]
    }

    /** `mesh` points at two distinct live buffers of the device, sized as
        its fields say. */
    predicate HoldsMeshBuffers(mesh: MeshHandle)
      reads this`device, device, mesh
    {
      && device != null && mesh.vertexBuffer.Addr? && mesh.indexBuffer.Addr? && mesh.vertexBuffer != mesh.indexBuffer
      && device.IsLive(mesh.vertexBuffer) && device.resources[mesh.vertexBuffer.h].Buffer?
      && device.resources[mesh.vertexBuffer.h].usage == VertexUsage
      && |device.resources[mesh.vertexBuffer.h].bytes| == mesh.vertexSize as nat
      && device.IsLive(mesh.indexBuffer) && device.resources[mesh.indexBuffer.h].Buffer?
      && device.resources[mesh.indexBuffer.h].usage == IndexUsage
      && |device.resources[mesh.indexBuffer.h].bytes| == mesh.indexSize as nat
    }

    /** Lines 380-391 of `CreateMesh`: the staging buffer `tb` (if any) is
        released and the mesh destroyed. */
    method AbandonMesh(mesh: MeshHandle, tb: Ptr)
      requires Valid() && HoldsMeshBuffers(mesh) && mesh in host.blocks
      requires tb.Null? || (device.IsLive(tb) && device.resources[tb.h].TransferBuffer?)
      modifies device, host`blocks, host`badFrees
      ensures Valid() && StreamKept() && device.faults == old(device.faults)
      ensures device.resources == old(device.resources) - {mesh.vertexBuffer.h, mesh.indexBuffer.h} - HandlesOf(tb)
      ensures host.blocks == old(host.blocks) - {mesh} && host.badFrees == old(host.badFrees)
    {
      if !tb.Null? {
        ReleaseOn(tb);
      }
      MeshCleanup(device.resources, Null, TransferBuffer([], false), mesh.vertexBuffer, mesh.indexBuffer);
      DestroyMesh(mesh);
    }

    /** Lines 374-432 of `CreateMesh`: a staging buffer of `vertexSize +
        indexSize` bytes, mapped, filled and uploaded. When the staging
        buffer cannot be created or mapped, the mesh is destroyed (and the
        staging buffer released). */
    method UploadMesh(mesh: MeshHandle, vertexData: seq<byte>, indexData: seq<byte>) returns (ok: bool, ghost outcome: MeshOutcome)
      requires Valid() && HoldsMeshBuffers(mesh) && mesh in host.blocks
      requires mesh.vertexSize as nat <= |vertexData| && mesh.indexSize as nat <= |indexData|
      requires mesh.vertexSize as nat + mesh.indexSize as nat < U32Limit
      modifies device, host`blocks, host`badFrees
      ensures Valid() && device == old(device)
      ensures device.pending == old(device.pending) && device.faults == old(device.faults)
      ensures outcome.NoTransferBuffer? || outcome.MapFailed? || outcome.Uploaded? || outcome.NotUploaded?
      ensures ok <==> outcome.Uploaded? || outcome.NotUploaded?
      ensures outcome.NoTransferBuffer? || outcome.MapFailed? ==>
                && device.resources == old(device.resources) - {mesh.vertexBuffer.h, mesh.indexBuffer.h}
                && device.log == old(device.log)
                && host.blocks == old(host.blocks) - {mesh} && host.badFrees == old(host.badFrees)
      ensures outcome.Uploaded? || outcome.NotUploaded? ==> host.blocks == old(host.blocks) && host.badFrees == old(host.badFrees)
      ensures outcome.Uploaded? ==>
                device.resources ==
                  old(device.resources)[mesh.vertexBuffer.h := Buffer(VertexUsage, vertexData[..mesh.vertexSize])]
                                       [mesh.indexBuffer.h := Buffer(IndexUsage, indexData[..mesh.indexSize])]
      ensures outcome.Uploaded? ==> |device.log| == |old(device.log)| + 1 && device.log[..|old(device.log)|] == old(device.log)
      ensures outcome.Uploaded? ==> device.log[|old(device.log)|].Submit?
      ensures outcome.NotUploaded? ==> device.resources == old(device.resources) && device.log == old(device.log)
    {
      var size := mesh.vertexSize as nat + mesh.indexSize as nat;
      assert |seq(size, _ => 0 as byte)| == size;
      var junk: seq<byte> :| |junk| == size;
      var tb := CreateOn(TransferBuffer(junk, false));
      if tb.Null? {
        AbandonMesh(mesh, tb);
        return false, NoTransferBuffer;
      }
      var mapped, cb := TransferMeshData(mesh, tb, vertexData[..mesh.vertexSize], indexData[..mesh.indexSize]);
      if !mapped {
        AbandonMesh(mesh, tb);
        MeshCleanup(old(device.resources), tb, TransferBuffer(junk, false), mesh.vertexBuffer, mesh.indexBuffer);
        return false, MapFailed;
      }
      OverwrittenThenDropped(old(device.resources), tb.h, TransferBuffer(junk, false),
        mesh.vertexBuffer.h, Buffer(VertexUsage, vertexData[..mesh.vertexSize]),
        mesh.indexBuffer.h, Buffer(IndexUsage, indexData[..mesh.indexSize]));
      ok, outcome := true, if cb.Addr? then Uploaded else NotUploaded;
    }
    /** Lines 386-430 of `CreateMesh` once the staging buffer `tb` exists. */
    method TransferMeshData(mesh: MeshHandle, tb: Ptr, vertexBytes: seq<byte>, indexBytes: seq<byte>)
      returns (mapped: bool, commandBuffer: Ptr)
      requires Valid() && HoldsMeshBuffers(mesh)
      requires |vertexBytes| == mesh.vertexSize as nat && |indexBytes| == mesh.indexSize as nat
      requires device.IsLive(tb) && device.resources[tb.h].TransferBuffer? && !device.resources[tb.h].mapped
      requires |device.resources[tb.h].data| == |vertexBytes| + |indexBytes|
      modifies device
      ensures Valid() && StreamKeptUnlessSubmitted(commandBuffer) && device.faults == old(device.faults)
      ensures !mapped ==> device.resources == old(device.resources) && !commandBuffer.Addr?
      ensures mapped && commandBuffer.Addr? ==>
                device.resources ==
                  (old(device.resources)[mesh.vertexBuffer.h := Buffer(VertexUsage, vertexBytes)]
                                        [mesh.indexBuffer.h := Buffer(IndexUsage, indexBytes)]) - {tb.h}
      ensures mapped && !commandBuffer.Addr? ==> device.resources == old(device.resources) - {tb.h}
    {
      mapped, commandBuffer := UploadThroughStaging(device, mesh.vertexBuffer, mesh.indexBuffer, tb, vertexBytes, indexBytes);
      PipelinesUntouchedKeepValid();
    }

    /** Device work that changes no field of the service, keeps the device
        valid and alive, issues handle numbers only forward and creates,
        changes or releases no pipeline keeps the service invariant. */
    twostate lemma PipelinesUntouchedKeepValid()
      requires old(Valid()) && unchanged(this)
      requires device != null ==> device.Valid() && !device.destroyed && old(device.nextId) <= device.nextId
      requires device != null ==> PipelinesKept(old(device.resources), device.resources)
      ensures Valid()
    {
    }

    /** Like `StreamKept`, except that a real `commandBuffer` was submitted. */
    twostate predicate StreamKeptUnlessSubmitted(new commandBuffer: Ptr)
      reads this`device, device
    {
      device == old(device)
      && (device != null ==>
            && device.log == old(device.log) + (if commandBuffer.Addr? then [Submit(commandBuffer)] else [])
            && device.pending == old(device.pending)
            && device.claimed == old(device.claimed) && device.destroyed == old(device.destroyed)
            && old(device.nextId) <= device.nextId)
    }

    // -------------------------------------------------------------- draws

    /** `DrawMesh`: the commands of `MeshDrawCommands` for the mesh's fields. */
    method DrawMesh(pass: Ptr, mesh: MeshHandle)
      requires device != null
      modifies device`log
      ensures device.log == old(device.log) + MeshDrawCommands(pass, mesh.Info())
    {
      device.Record(BindVertexBuffer(pass, 0, mesh.vertexBuffer, 0));
      if mesh.indexBuffer.Null? {
        device.Record(Draw(pass, mesh.vertexSize as nat, 1));
      } else {
        device.Record(BindIndexBuffer(pass, mesh.indexBuffer, Index16));
        device.Record(DrawIndexed(pass, mesh.indexCount as nat, 1));
      }
    }

    /** `DrawCube`: the same commands as `DrawMesh`. */
    method DrawCube(pass: Ptr, mesh: MeshHandle)
      requires device != null
      modifies device`log
      ensures device.log == old(device.log) + MeshDrawCommands(pass, mesh.Info())
    {
      DrawMesh(pass, mesh);
    }

    /** `DrawLight`: the commands of `LightDrawCommands`. */
    method DrawLight(commandBuffer: Ptr, pass: Ptr, mesh: MeshHandle, mvp: Mat4)
      requires device != null
      modifies device`log
      ensures device.log == old(device.log) + LightDrawCommands(commandBuffer, pass, mesh.Info(), mvp)
    {
      device.Record(PushVertexUniform(commandBuffer, 0, mvp));
      device.Record(BindVertexBuffer(pass, 0, mesh.vertexBuffer, 0));
      device.Record(Draw(pass, mesh.vertexSize as nat, 1));
    }

    // ------------------------------------------------------------- passes

    /** `BeginPass`: a heap block for the frame state, a command buffer, the
        swapchain texture and a render pass into the frame's targets. Null
        when the block, the command buffer or the swapchain texture cannot be
        had, the block then freed; a command buffer acquired by then is
        neither submitted nor cancelled. */
    method BeginPass() returns (state: RenderState?, ghost outcome: PassOutcome)
      requires Valid()
      modifies device, host`blocks, host`badFrees
      ensures Valid() && FrameResourcesKept()
      ensures state == null <==> !outcome.Opened?
      ensures state == null ==> host.blocks == old(host.blocks) && host.badFrees == old(host.badFrees)
      ensures outcome.NoMemory? && device != null ==> device.pending == old(device.pending) && device.log == old(device.log)
      ensures state != null ==> fresh(state) && host.blocks == old(host.blocks) + {state} && host.badFrees == old(host.badFrees)
      ensures FrameAcquired(outcome, state)
    {
      state := new RenderState();
      var ok := host.Malloc(state);
      if !ok {
        return null, NoMemory;
      }
      var ready;
      ready, outcome := AcquireFrame(state);
      if !ready {
        host.Free(state);
        state := null;
      }
    }

    /** The device owns the same resources, faults and window as before. */
    twostate predicate FrameResourcesKept()
      reads this`device, device
    {
      device == old(device)
      && (device != null ==>
            && device.resources == old(device.resources) && device.faults == old(device.faults)
            && device.claimed == old(device.claimed) && device.destroyed == old(device.destroyed))
    }

    /** What lines 476-528 of `BeginPass` leave behind, by outcome. */
    twostate predicate FrameAcquired(new outcome: PassOutcome, new state: RenderState?)
      reads this, device, state
    {
      && device == old(device)
      && (device == null ==> outcome.NoMemory? || outcome.NoCommandBuffer?)
      && (outcome.NoCommandBuffer? && device != null ==>
            device.pending == old(device.pending) && device.log == old(device.log))
      && (outcome.SwapchainFailed? || outcome.NoSwapchainTexture? ==>
            && device != null && outcome.leaked.owner == device && outcome.leaked !in old(device.pending)
            && device.pending == old(device.pending) + {outcome.leaked} && device.log == old(device.log))
      && (outcome.Opened? ==>
            && device != null && state != null
            && state.commandBuffer.Addr? && state.commandBuffer.h !in old(device.pending)
            && device.pending == old(device.pending) + {state.commandBuffer.h}
            && state.swapchainTexture.Addr?
            && state.colorTarget == ColorTargetFor(sampleCount, msaaTexture, resolveTexture, state.swapchainTexture)
            && state.depthTarget == DepthTargetFor(depthTexture)
            && device.log == old(device.log) + [BeginRenderPass(state.commandBuffer, state.colorTarget, state.depthTarget, state.renderPass)])
    }

    /** Lines 476-528 of `BeginPass`, filling `state`. Without a device the
        command buffer is null. */
    method AcquireFrame(state: RenderState) returns (ready: bool, ghost outcome: PassOutcome)
      requires Valid()
      modifies device, state
      ensures Valid() && FrameResourcesKept()
      ensures ready <==> outcome.Opened?
      ensures !outcome.NoMemory? && FrameAcquired(outcome, state)
    {
      var d := device;
      if d == null {
        state.commandBuffer := Null;
        return false, NoCommandBuffer;
      }
      state.commandBuffer := d.AcquireCommandBuffer();
      if state.commandBuffer.Null? {
        PipelinesUntouchedKeepValid();
        return false, NoCommandBuffer;
      }
      state.swapchainTexture := Null;
      var acquired;
      acquired, state.swapchainTexture := d.AcquireSwapchainTexture(state.commandBuffer);
      if !acquired {
        PipelinesUntouchedKeepValid();
        return false, SwapchainFailed(state.commandBuffer.h);
      }
      if state.swapchainTexture.Null? {
        PipelinesUntouchedKeepValid();
        return false, NoSwapchainTexture(state.commandBuffer.h);
      }
      state.colorTarget := ColorTargetFor(sampleCount, msaaTexture, resolveTexture, state.swapchainTexture);
      state.depthTarget := DepthTargetFor(depthTexture);
      state.renderPass := d.BeginGPURenderPass(state.commandBuffer, state.colorTarget, state.depthTarget);
      PipelinesUntouchedKeepValid();
      return true, Opened;
    }

    /** `EndPass`: the commands of `EndPassCommands` for the frame in
        `state`, at the window's size; the command buffer is not submitted. */
    method EndPass(state: RenderState, windowWidth: u32, windowHeight: u32)
      requires device != null
      modifies device`log
      ensures device.log == old(device.log) +
                EndPassCommands(sampleCount, resolveTexture, state.commandBuffer, state.renderPass,
                                state.swapchainTexture, windowWidth, windowHeight)
    {
      device.Record(EndRenderPass(state.renderPass));
      if sampleCount != Samples1 {
        device.Record(Blit(state.commandBuffer, resolveTexture, state.swapchainTexture, windowWidth, windowHeight));
      }
    }

    // ------------------------------------------------------------ getters

    /** `GetDevice`: the service's device, valid and not destroyed while the
        service invariant holds. */
    function GetDevice(): (d: GpuDevice?)
      reads this`device, device
      ensures DeviceValid() && d != null ==> d.Valid() && !d.destroyed
    {
      device
    }

    /** `GetDepthTexture`: null or a real texture pointer that no other slot
        shares, issued by the current device when it is its own. */
    function GetDepthTexture(): (t: Ptr)
      reads this`depthTexture, this`msaaTexture, this`resolveTexture, this`device, device
      ensures SlotsValid() ==> !t.Indeterminate? && (t.Addr? ==> t != msaaTexture && t != resolveTexture)
      ensures SlotsValid() && device != null && t.Addr? ==> Issued(t.h)
    {
      depthTexture
    }

    /** `GetMSAATexture`: null or a real texture pointer that no other slot
        shares; a non-null one means MSAA is on. */
    function GetMSAATexture(): (t: Ptr)
      reads this`depthTexture, this`msaaTexture, this`resolveTexture, this`sampleCount, this`device, device
      ensures SlotsValid() ==> !t.Indeterminate? && (t.Addr? ==> t != depthTexture && t != resolveTexture)
      ensures SlotsValid() && device != null && t.Addr? ==> Issued(t.h)
      ensures MsaaSlotsImplyMultisample() && !t.Null? ==> sampleCount != Samples1
    {
      msaaTexture
    }

    /** `GetResolveTexture`: null or a real texture pointer that no other
        slot shares; a non-null one means MSAA is on. */
    function GetResolveTexture(): (t: Ptr)
      reads this`depthTexture, this`msaaTexture, this`resolveTexture, this`sampleCount, this`device, device
      ensures SlotsValid() ==> !t.Indeterminate? && (t.Addr? ==> t != depthTexture && t != msaaTexture)
      ensures SlotsValid() && device != null && t.Addr? ==> Issued(t.h)
      ensures MsaaSlotsImplyMultisample() && !t.Null? ==> sampleCount != Samples1
    {
      resolveTexture
    }
  }
}
