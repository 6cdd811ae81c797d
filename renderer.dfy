/** The older `Renderer` the render service grew out of: it owns only the
    device, its meshes have a vertex buffer and nothing else, and index data
    handed to `CreateMesh` is ignored. */
module LegacyRenderer {
  import opened Types
  import opened Gpu
  import opened HostMemory
  import opened RenderPlan
  import Rendering

  /** The mesh handle of this snapshot: a vertex buffer and its size. */
  class MeshHandle {
    var vertexBuffer: Ptr
    var vertexSize: u32

    /** Freshly allocated: the pointer holds garbage, the size anything. */
    constructor ()
      ensures vertexBuffer == Indeterminate
    {
      vertexBuffer := Indeterminate;
      var garbage: u32 :| true;
      vertexSize := garbage;
    }
  }

  /** How `CreateMesh` ended: at which step it gave up, or whether the copy
      pass ran (it does not when no command buffer could be acquired, which
      is not checked). */
  datatype MeshOutcome = NoMemory | NoVertexBuffer | NoTransferBuffer | MapFailed | Uploaded | NotUploaded

  /** Lines 76-105 of `CreateMesh` on device `d`, once the staging buffer
      `tb` exists: it is mapped (which may fail, changing nothing), filled
      with the vertex bytes, unmapped, copied into `vb` by a submitted
      command buffer, and released. */
  method UploadVertices(d: GpuDevice, vb: Ptr, tb: Ptr, vertexBytes: seq<byte>)
    returns (mapped: bool, commandBuffer: Ptr)
    requires d.Valid() && d.IsLive(vb) && d.resources[vb.h].Buffer? && |d.resources[vb.h].bytes| == |vertexBytes|
    requires d.IsLive(tb) && d.resources[tb.h].TransferBuffer? && !d.resources[tb.h].mapped
    requires |d.resources[tb.h].data| == |vertexBytes|
    modifies d`resources, d`pending, d`nextId, d`log, d`faults
    ensures d.Valid() && old(d.nextId) <= d.nextId && d.pending == old(d.pending) && d.faults == old(d.faults)
    ensures d.log == old(d.log) + (if commandBuffer.Addr? then [Submit(commandBuffer)] else [])
    ensures !mapped ==> d.resources == old(d.resources) && !commandBuffer.Addr?
    ensures mapped && commandBuffer.Addr? ==>
              d.resources == old(d.resources)[vb.h := Buffer(old(d.resources[vb.h]).usage, vertexBytes)] - {tb.h}
    ensures mapped && !commandBuffer.Addr? ==> d.resources == old(d.resources) - {tb.h}
  {
    mapped := d.MapTransfer(tb);
    if !mapped {
      return false, Null;
    }
    ghost var staged := TransferBuffer(vertexBytes, false);
    StageVertices(d, tb, vertexBytes);
    assert d.resources == old(d.resources)[tb.h := staged];
    commandBuffer := CopyVertices(d, vb, tb, vertexBytes);
    StagingDropped(old(d.resources), tb.h, staged, vb.h, Buffer(old(d.resources[vb.h]).usage, vertexBytes));
  }

  /** Lines 84-85 of `CreateMesh`: the vertex bytes are copied into the
      mapped staging buffer, which is then unmapped. */
  method StageVertices(d: GpuDevice, tb: Ptr, vertexBytes: seq<byte>)
    requires d.Valid() && d.IsLive(tb) && d.resources[tb.h].TransferBuffer? && d.resources[tb.h].mapped
    requires |d.resources[tb.h].data| == |vertexBytes|
    modifies d`resources
    ensures d.Valid()
    ensures d.resources == old(d.resources)[tb.h := TransferBuffer(vertexBytes, false)]
  {
    UploadFillsBuffer(d.resources[tb.h].data, vertexBytes);
    d.WriteTransfer(tb, 0, vertexBytes);
    d.Unmap(tb);
  }

  /** Lines 87-105 of `CreateMesh`: a command buffer whose copy pass uploads
      the staged bytes to `vb` is submitted, and `tb` is released. Without
      a command buffer the copy pass is null and nothing is uploaded. */
  method CopyVertices(d: GpuDevice, vb: Ptr, tb: Ptr, vertexBytes: seq<byte>) returns (commandBuffer: Ptr)
    requires d.Valid() && d.IsLive(vb) && d.resources[vb.h].Buffer? && |d.resources[vb.h].bytes| == |vertexBytes|
    requires d.IsLive(tb) && d.resources[tb.h] == TransferBuffer(vertexBytes, false) && vb != tb
    modifies d`resources, d`pending, d`nextId, d`log, d`faults
    ensures d.Valid() && old(d.nextId) <= d.nextId && d.pending == old(d.pending) && d.faults == old(d.faults)
    ensures d.log == old(d.log) + (if commandBuffer.Addr? then [Submit(commandBuffer)] else [])
    ensures commandBuffer.Addr? ==>
              d.resources == old(d.resources)[vb.h := Buffer(old(d.resources[vb.h]).usage, vertexBytes)] - {tb.h}
    ensures !commandBuffer.Addr? ==> d.resources == old(d.resources) - {tb.h}
  {
    assert vertexBytes[0..|vertexBytes|] == vertexBytes;
    commandBuffer := d.AcquireCommandBuffer();
    d.Upload(commandBuffer, tb, 0, vb, |vertexBytes|);
    if commandBuffer.Addr? {
      UploadFillsBuffer(old(d.resources[vb.h]).bytes, vertexBytes);
    }
    d.SubmitGPUCommandBuffer(commandBuffer);
    d.Release(tb);
  }

  /** Dropping the staging buffer forgets what it held. */
  lemma StagingDropped(live: map<Handle, Resource>, tb: Handle, t: Resource, vb: Handle, v: Resource)
    requires tb != vb
    ensures live[tb := t] - {tb} == live - {tb}
    ensures live[tb := t][vb := v] - {tb} == live[vb := v] - {tb}
    ensures tb !in live ==> live[tb := t] - {tb} == live && live[tb := t][vb := v] - {tb} == live[vb := v]
  {
  }

  class Renderer {
    const host: Host
    /** `device`; the `window` field of the class is never written. */
    var device: GpuDevice?

    /** A device, when there is one, has not been destroyed. */
    ghost predicate Valid()
      reads this`device, device
    {
      device != null ==> device.Valid() && !device.destroyed
    }

    /** The zero-initialised static instance. */
    constructor (host: Host)
      ensures this.host == host && device == null && Valid()
    {
      this.host := host;
      device := null;
    }

    /** `Initialize`: a null window is refused before any device is
        created. Otherwise the field takes whatever `SDL_CreateGPUDevice`
        returned (an earlier device is dropped without being destroyed) and
        the window is claimed for it; a device whose claim failed stays. */
    method Initialize(window: Option<Rendering.Window>) returns (ok: bool)
      requires Valid()
      modifies this`device
      ensures Valid()
      ensures window.None? ==> !ok && device == old(device)
      ensures window.Some? && device != null ==>
                fresh(device) && device.resources == map[] && device.pending == {} && device.log == [] && device.faults == []
      ensures ok <==> window.Some? && device != null && device.claimed
    {
      if window.None? {
        return false;
      }
      device := CreateDevice();
      if device == null {
        return false;
      }
      ok := device.ClaimWindow();
    }

    /** `Shutdown`: a device is destroyed (its window is not released) and
        the field nulled; without a device nothing happens, so a second
        `Shutdown` changes nothing. */
    method Shutdown()
      requires Valid()
      modifies this`device, device
      ensures Valid() && device == null
      ensures old(device) != null ==>
                && old(device).destroyed && old(device).claimed == old(device.claimed)
                && old(device).resources == old(device.resources) && old(device).pending == old(device.pending)
                && old(device).log == old(device.log)
      ensures old(device) == null ==> unchanged(this)
    {
      if device != null {
        device.Destroy();
        device := null;
      }
    }

    /** `DestroyMesh`: null is ignored; otherwise a non-null vertex buffer is
        released (through a null device, which does nothing) and the block
        is freed. */
    method DestroyMesh(mesh: MeshHandle?)
      requires Valid()
      modifies device, host`blocks, host`badFrees
      ensures Valid() && device == old(device)
      ensures device != null ==> device.pending == old(device.pending) && device.log == old(device.log) && device.nextId == old(device.nextId)
      ensures mesh == null ==> host.blocks == old(host.blocks) && host.badFrees == old(host.badFrees)
      ensures mesh == null && device != null ==> device.resources == old(device.resources) && device.faults == old(device.faults)
      ensures mesh != null && device != null ==>
                && device.resources == AfterRelease(old(device.resources), mesh.vertexBuffer)
                && device.faults == FaultsAfterRelease(old(device.resources), old(device.faults), mesh.vertexBuffer)
      ensures mesh != null ==> host.blocks == old(host.blocks) - {mesh}
      ensures mesh != null ==> host.badFrees == old(host.badFrees) + (if mesh in old(host.blocks) then 0 else 1)
    {
      if mesh != null {
        if !mesh.vertexBuffer.Null? && device != null {
          device.Release(mesh.vertexBuffer);
        }
        host.Free(mesh);
      }
    }

    /** `DrawCube` of this snapshot: push the matrix to vertex uniform slot
        0, bind the vertex buffer at slot 0 and draw `vertexSize` vertices,
        the commands the render service's `DrawLight` issues for a mesh
        without an index buffer. */
    method DrawCube(commandBuffer: Ptr, pass: Ptr, mesh: MeshHandle, mvp: Mat4)
      requires device != null
      modifies device`log
      ensures device.log == old(device.log) +
                LightDrawCommands(commandBuffer, pass, MeshInfo(mesh.vertexBuffer, Null, mesh.vertexSize, 0, 0, 0), mvp)
    {
      device.Record(PushVertexUniform(commandBuffer, 0, mvp));
      device.Record(BindVertexBuffer(pass, 0, mesh.vertexBuffer, 0));
      device.Record(Draw(pass, mesh.vertexSize as nat, 1));
    }

    /** `GetDevice`: the renderer's device, valid and not destroyed while
        the renderer's invariant holds. */
    function GetDevice(): (d: GpuDevice?)
      reads this`device, device
      ensures Valid() && d != null ==> d.Valid() && !d.destroyed
    {
      device
    }

    /** `CreateMesh`: a heap block for the handle, a vertex buffer of
        `vertexSize` bytes and a staging buffer of the same size, then one
        upload of the first `vertexSize` bytes of `vertexData`; the index
        arguments are never read. Null on any allocation or map failure,
        with everything created so far released. A mesh is returned even
        when no command buffer could be acquired, and then its vertex
        buffer holds whatever it held. */
    method CreateMesh(vertexData: seq<byte>, vertexSize: u32, indexData: seq<byte>, indexSize: u32)
      returns (mesh: MeshHandle?, ghost outcome: MeshOutcome)
      requires Valid() && vertexSize as nat <= |vertexData|
      modifies device, host`blocks, host`badFrees
      ensures Valid() && device == old(device)
      ensures mesh == null <==> !(outcome.Uploaded? || outcome.NotUploaded?)
      ensures device == null ==> outcome.NoMemory? || outcome.NoVertexBuffer?
      ensures mesh == null ==> host.blocks == old(host.blocks) && host.badFrees == old(host.badFrees)
      ensures device != null ==> device.pending == old(device.pending) && device.faults == old(device.faults)
      ensures mesh == null && device != null ==> device.resources == old(device.resources) && device.log == old(device.log)
      ensures mesh != null ==>
                && fresh(mesh) && host.blocks == old(host.blocks) + {mesh} && host.badFrees == old(host.badFrees)
                && mesh.vertexSize == vertexSize && device != null
                && mesh.vertexBuffer.Addr? && mesh.vertexBuffer.h !in old(device.resources)
                && device.resources.Keys == old(device.resources).Keys + {mesh.vertexBuffer.h}
                && device.resources[mesh.vertexBuffer.h].Buffer?
                && device.resources[mesh.vertexBuffer.h].usage == VertexUsage
                && |device.resources[mesh.vertexBuffer.h].bytes| == vertexSize as nat
                && (forall h | h in old(device.resources) :: device.resources[h] == old(device.resources[h]))
      ensures outcome.Uploaded? ==> device.resources[mesh.vertexBuffer.h].bytes == vertexData[..vertexSize]
      ensures outcome.Uploaded? ==> |device.log| == |old(device.log)| + 1 && device.log[..|old(device.log)|] == old(device.log)
      ensures outcome.Uploaded? ==> device.log[|old(device.log)|].Submit?
      ensures outcome.NotUploaded? ==> device.log == old(device.log)
    {
      mesh := new MeshHandle();
      var ok := host.Malloc(mesh);
      if !ok {
        return null, NoMemory;
      }
      mesh.vertexSize := vertexSize;
      ok := CreateVertexBuffer(mesh);
      if !ok {
        return null, NoVertexBuffer;
      }
      var uploaded;
      ok, uploaded := UploadMesh(mesh, vertexData[..vertexSize]);
      if !ok {
        return null, if uploaded then NoTransferBuffer else MapFailed;
      }
      outcome := if uploaded then Uploaded else NotUploaded;
    }

    /** Lines 50-60 of `CreateMesh`: a vertex buffer of the recorded size,
        its contents undefined; on failure the pointer is null and the mesh
        is destroyed, releasing nothing. */
    method CreateVertexBuffer(mesh: MeshHandle) returns (ok: bool)
      requires Valid() && mesh in host.blocks
      modifies device, mesh`vertexBuffer, host`blocks, host`badFrees
      ensures Valid() && device == old(device)
      ensures device == null ==> !ok
      ensures device != null ==> device.pending == old(device.pending) && device.log == old(device.log) && device.faults == old(device.faults)
      ensures ok ==> host.blocks == old(host.blocks) && host.badFrees == old(host.badFrees)
      ensures ok ==>
                && mesh.vertexBuffer.Addr? && mesh.vertexBuffer.h !in old(device.resources)
                && old(device.nextId) <= device.nextId
                && mesh.vertexBuffer.h in device.resources
                && device.resources == old(device.resources)[mesh.vertexBuffer.h := device.resources[mesh.vertexBuffer.h]]
                && device.resources[mesh.vertexBuffer.h].Buffer?
                && device.resources[mesh.vertexBuffer.h].usage == VertexUsage
                && |device.resources[mesh.vertexBuffer.h].bytes| == mesh.vertexSize as nat
      ensures !ok ==> host.blocks == old(host.blocks) - {mesh} && host.badFrees == old(host.badFrees)
      ensures !ok && device != null ==> device.resources == old(device.resources)
    {
      if device == null {
        mesh.vertexBuffer := Null;
      } else {
        assert |seq(mesh.vertexSize as nat, _ => 0 as byte)| == mesh.vertexSize as nat;
        var bytes: seq<byte> :| |bytes| == mesh.vertexSize as nat;
        mesh.vertexBuffer := device.Create(Buffer(VertexUsage, bytes));
      }
      ok := !mesh.vertexBuffer.Null?;
      if !ok {
        DestroyMesh(mesh);
      }
    }

    /** Lines 64-105 of `CreateMesh`: a staging buffer of `|vertexBytes|`
        bytes, mapped, filled and uploaded. When it cannot be created or
        mapped the mesh is destroyed (and the staging buffer released);
        `uploaded` then tells which of the two failed. */
    method UploadMesh(mesh: MeshHandle, vertexBytes: seq<byte>) returns (ok: bool, uploaded: bool)
      requires Valid() && mesh in host.blocks && device != null
      requires device.IsLive(mesh.vertexBuffer) && device.resources[mesh.vertexBuffer.h].Buffer?
      requires device.resources[mesh.vertexBuffer.h].usage == VertexUsage
      requires |device.resources[mesh.vertexBuffer.h].bytes| == |vertexBytes| == mesh.vertexSize as nat
      modifies device, host`blocks, host`badFrees
      ensures Valid() && device == old(device) && device.pending == old(device.pending) && device.faults == old(device.faults)
      ensures old(device.nextId) <= device.nextId
      ensures !ok ==> host.blocks == old(host.blocks) - {mesh} && host.badFrees == old(host.badFrees)
      ensures !ok ==> device.resources == old(device.resources) - {mesh.vertexBuffer.h} && device.log == old(device.log)
      ensures ok ==> host.blocks == old(host.blocks) && host.badFrees == old(host.badFrees)
      ensures ok && uploaded ==>
                && device.resources == old(device.resources)[mesh.vertexBuffer.h := Buffer(VertexUsage, vertexBytes)]
                && |device.log| == |old(device.log)| + 1 && device.log[..|old(device.log)|] == old(device.log)
                && device.log[|old(device.log)|].Submit?
      ensures ok && !uploaded ==> device.resources == old(device.resources) && device.log == old(device.log)
    {
      var d := device;
      ghost var before := d.resources;
      var vb := mesh.vertexBuffer;
      assert |seq(|vertexBytes|, _ => 0 as byte)| == |vertexBytes|;
      var junk: seq<byte> :| |junk| == |vertexBytes|;
      var tb := d.Create(TransferBuffer(junk, false));
      if tb.Null? {
        DestroyMesh(mesh);
        return false, true;
      }
      var mapped, commandBuffer := UploadVertices(d, vb, tb, vertexBytes);
      if !mapped {
        d.Release(tb);
        StagingDropped(before, tb.h, TransferBuffer(junk, false), vb.h, Buffer(VertexUsage, vertexBytes));
        DestroyMesh(mesh);
        return false, false;
      }
      StagingDropped(before, tb.h, TransferBuffer(junk, false), vb.h, Buffer(VertexUsage, vertexBytes));
      return true, commandBuffer.Addr?;
    }
  }
}
