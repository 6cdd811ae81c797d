/** What the render service asks of the device, as values: the vertex layout
    every pipeline shares, the textures it creates, the command sequences of
    its draw helpers and the colour and depth targets of a frame. The class
    `Service` in module `Rendering` issues exactly these. */
module RenderPlan {
  import opened Types
  import opened Gpu
  import opened Passes

  // ---------------------------------------------------------------- layout

  /** `sizeof(PositionNormalTextureVertex)`: position, normal, texture
      coordinate, all 32-bit floats. */
  const VertexPitch: nat := 32

  function ElementBytes(f: ElementFormat): nat
  {
    match f
    case Float2 => 8
    case Float3 => 12
  }

  /** Position at 0, normal at 12, texture coordinate at 24, all from slot 0. */
  const VertexAttributes: seq<VertexAttribute> :=
    [VertexAttribute(0, 0, Float3, 0), VertexAttribute(1, 0, Float3, 12), VertexAttribute(2, 0, Float2, 24)]

  /** Each attribute starts where the previous one ends, the first at
      `start`, and the last ends exactly at `pitch`: no gap, no overlap. */
  predicate PackedFrom(attrs: seq<VertexAttribute>, start: nat, pitch: nat)
    decreases |attrs|
  {
    if attrs == [] then start == pitch
    else attrs[0].offset == start && PackedFrom(attrs[1..], start + ElementBytes(attrs[0].format), pitch)
  }

  /** The three attributes tile one vertex exactly, at consecutive
      locations, all from buffer slot 0. */
  lemma VertexLayoutTilesPitch()
    ensures PackedFrom(VertexAttributes, 0, VertexPitch)
    ensures forall i | 0 <= i < |VertexAttributes| ::
              VertexAttributes[i].location == i && VertexAttributes[i].bufferSlot == 0
  {
  }

  /** A packed layout never lets two attributes share a byte. */
  lemma {:induction false} PackedAttributesDisjoint(attrs: seq<VertexAttribute>, start: nat, pitch: nat, i: nat, j: nat)
    requires PackedFrom(attrs, start, pitch)
    requires i < j < |attrs|
    ensures start <= attrs[i].offset
    ensures attrs[i].offset + ElementBytes(attrs[i].format) <= attrs[j].offset
    ensures attrs[j].offset + ElementBytes(attrs[j].format) <= pitch
    decreases |attrs|
  {
    if i == 0 {
      PackedStaysInside(attrs[1..], start + ElementBytes(attrs[0].format), pitch, j - 1);
    } else {
      PackedAttributesDisjoint(attrs[1..], start + ElementBytes(attrs[0].format), pitch, i - 1, j - 1);
    }
  }

  /** In a packed layout every attribute lies between `start` and `pitch`. */
  lemma {:induction false} PackedStaysInside(attrs: seq<VertexAttribute>, start: nat, pitch: nat, k: nat)
    requires PackedFrom(attrs, start, pitch)
    requires k < |attrs|
    ensures start <= attrs[k].offset
    ensures attrs[k].offset + ElementBytes(attrs[k].format) <= pitch
    decreases |attrs|
  {
    if k > 0 {
      PackedStaysInside(attrs[1..], start + ElementBytes(attrs[0].format), pitch, k - 1);
    } else if |attrs| > 1 {
      PackedStaysInside(attrs[1..], start + ElementBytes(attrs[0].format), pitch, 0);
    }
  }

  /** The pipeline `CreatePipeline` asks for: one vertex buffer at slot 0 with
      the shared layout, triangle lists, the service's sample count, a depth
      test with LESS that also writes depth, a D16 depth target and one colour
      target in the swapchain's format. */
  function PipelineInfoFor(vs: Ptr, fs: Ptr, samples: SampleCount, colorFormat: TextureFormat): PipelineInfo
  {
    PipelineInfo(vs, fs, 0, VertexPitch, VertexAttributes, samples, Less, true, true, colorFormat, D16Unorm)
  }

  /** What every pipeline of the service has in common. */
  predicate UsesServiceLayout(info: PipelineInfo, samples: SampleCount)
  {
    && info.bufferSlot == 0 && info.pitch == VertexPitch && info.attributes == VertexAttributes
    && PackedFrom(info.attributes, 0, info.pitch)
    && info.samples == samples
    && info.depthCompare == Less && info.depthTest && info.depthWrite && info.depthFormat == D16Unorm
  }

  lemma PipelineInfoUsesServiceLayout(vs: Ptr, fs: Ptr, samples: SampleCount, colorFormat: TextureFormat)
    ensures UsesServiceLayout(PipelineInfoFor(vs, fs, samples, colorFormat), samples)
    ensures PipelineInfoFor(vs, fs, samples, colorFormat).colorFormat == colorFormat
  {
    VertexLayoutTilesPitch();
  }

  // -------------------------------------------------------------- textures

  /** 4x MSAA when the device supports it for the swapchain format, else none. */
  function ChooseSampleCount(supports4: bool): (s: SampleCount)
    ensures s == Samples4 <==> supports4
    ensures s == Samples1 <==> !supports4
  {
    if supports4 then Samples4 else Samples1
  }

  /** The depth attachment: D16, multisampled like the colour target. */
  function DepthTextureInfo(width: u32, height: u32, samples: SampleCount): TextureInfo
  {
    TextureInfo(D16Unorm, DepthStencilTarget, width, height, samples)
  }

  /** The multisampled colour attachment, in the swapchain's format. */
  function MsaaTextureInfo(format: TextureFormat, width: u32, height: u32, samples: SampleCount): TextureInfo
  {
    TextureInfo(format, ColorTarget, width, height, samples)
  }

  /** The single-sampled texture the MSAA target resolves into; it is also
      sampled, as the source of the blit. */
  function ResolveTextureInfo(format: TextureFormat, width: u32, height: u32): TextureInfo
  {
    TextureInfo(format, ColorTargetAndSampler, width, height, Samples1)
  }

  // ----------------------------------------------------------------- draws

  /** The value fields of a `MeshHandle`. */
  datatype MeshInfo = MeshInfo(
    vertexBuffer: Ptr, indexBuffer: Ptr,
    vertexSize: u32, indexSize: u32, vertexCount: u32, indexCount: u32)

  /** `DrawMesh` and `DrawCube`: bind the vertex buffer at slot 0; with no
      index buffer draw `vertexSize` vertices, otherwise bind the index
      buffer with 16-bit indices and draw `indexCount` of them. */
  function MeshDrawCommands(pass: Ptr, m: MeshInfo): seq<Command>
  {
    [BindVertexBuffer(pass, 0, m.vertexBuffer, 0)]
    + if m.indexBuffer.Null?
      then [Draw(pass, m.vertexSize as nat, 1)]
      else [BindIndexBuffer(pass, m.indexBuffer, Index16), DrawIndexed(pass, m.indexCount as nat, 1)]
  }

  /** `DrawLight`: push the matrix to vertex uniform slot 0, bind the vertex
      buffer at slot 0 and draw `vertexSize` vertices, never indexed. */
  function LightDrawCommands(commandBuffer: Ptr, pass: Ptr, m: MeshInfo, mvp: Mat4): seq<Command>
  {
    [PushVertexUniform(commandBuffer, 0, mvp), BindVertexBuffer(pass, 0, m.vertexBuffer, 0), Draw(pass, m.vertexSize as nat, 1)]
  }

  /** Drawing a mesh in an open pass adds exactly one draw call to what the
      pass has received. It reads the mesh's vertex buffer under the pipeline
      and uniform already bound. Without an index buffer it draws
      `vertexSize` vertices (a byte count, as written); otherwise it draws
      `indexCount` 16-bit indices from the mesh's index buffer. */
  lemma DrawMeshAddsOneDraw(v: PassView, pass: Ptr, m: MeshInfo)
    requires pass.Addr?
    ensures var after := Run(v, MeshDrawCommands(pass, m)).draws;
      && |after| == |v.draws| + 1 && after[..|v.draws|] == v.draws
      && after[|v.draws|].pipeline == v.bound.pipeline
      && after[|v.draws|].vertexBuffer == m.vertexBuffer
      && after[|v.draws|].vertexUniform == v.bound.vertexUniform
      && after[|v.draws|].instances == 1
      && (m.indexBuffer.Null? ==> after[|v.draws|].indices == None && after[|v.draws|].count == m.vertexSize as nat)
      && (!m.indexBuffer.Null? ==>
            after[|v.draws|].indices == Some((m.indexBuffer, Index16)) && after[|v.draws|].count == m.indexCount as nat)
  {
    var cmds := MeshDrawCommands(pass, m);
    if m.indexBuffer.Null? {
      assert cmds == [cmds[0], cmds[1]];
      RunShort(v, cmds[0], cmds[1], cmds[1]);
    } else {
      assert cmds == [cmds[0], cmds[1], cmds[2]];
      RunShort(v, cmds[0], cmds[1], cmds[2]);
    }
  }

  /** Outside an open pass the helpers issue commands that draw nothing. */
  lemma DrawWithoutPassDrawsNothing(v: PassView, cb: Ptr, pass: Ptr, m: MeshInfo, mvp: Mat4)
    requires !pass.Addr?
    ensures Run(v, MeshDrawCommands(pass, m)).draws == v.draws
    ensures Run(v, LightDrawCommands(cb, pass, m, mvp)).draws == v.draws
  {
    var cmds := MeshDrawCommands(pass, m);
    if m.indexBuffer.Null? {
      assert cmds == [cmds[0], cmds[1]];
      RunShort(v, cmds[0], cmds[1], cmds[1]);
    } else {
      assert cmds == [cmds[0], cmds[1], cmds[2]];
      RunShort(v, cmds[0], cmds[1], cmds[2]);
    }
    var l := LightDrawCommands(cb, pass, m, mvp);
    RunShort(v, l[0], l[1], l[2]);
  }

  /** Drawing a light adds one non-indexed draw of `vertexSize` vertices that
      sees the pushed matrix, whatever index buffer the mesh has. */
  lemma DrawLightAddsOneDraw(v: PassView, cb: Ptr, pass: Ptr, m: MeshInfo, mvp: Mat4)
    requires cb.Addr? && pass.Addr?
    ensures var after := Run(v, LightDrawCommands(cb, pass, m, mvp)).draws;
      && |after| == |v.draws| + 1 && after[..|v.draws|] == v.draws
      && after[|v.draws|] == DrawCall(v.bound.pipeline, m.vertexBuffer, None, m.vertexSize as nat, 1, Some(mvp))
  {
    var l := LightDrawCommands(cb, pass, m, mvp);
    RunShort(v, l[0], l[1], l[2]);
  }

  /** Binding a pipeline and then drawing a mesh draws with that pipeline. */
  lemma BoundPipelineReachesDraw(v: PassView, pass: Ptr, pipeline: Ptr, m: MeshInfo)
    requires pass.Addr?
    ensures var after := Run(v, [BindPipeline(pass, pipeline)] + MeshDrawCommands(pass, m)).draws;
      |after| == |v.draws| + 1 && after[|v.draws|].pipeline == pipeline
  {
    var w := Step(v, BindPipeline(pass, pipeline));
    RunAppend(v, [BindPipeline(pass, pipeline)], MeshDrawCommands(pass, m));
    RunShort(v, BindPipeline(pass, pipeline), BindPipeline(pass, pipeline), BindPipeline(pass, pipeline));
    DrawMeshAddsOneDraw(w, pass, m);
  }

  // --------------------------------------------------------------- staging

  /** The staging buffer of `CreateMesh`: whatever it held, copying the
      vertex bytes to offset 0 and the index bytes to offset `|v|` leaves
      exactly their concatenation, from which the two upload regions
      `[0, |v|)` and `[|v|, |v| + |i|)` read the inputs back. */
  lemma StagingLayout(junk: seq<byte>, v: seq<byte>, i: seq<byte>)
    requires |junk| == |v| + |i|
    ensures Overwrite(Overwrite(junk, 0, v), |v|, i) == v + i
    ensures (v + i)[0..|v|] == v && (v + i)[|v|..|v| + |i|] == i
  {
    var once := Overwrite(junk, 0, v);
    assert once[..|v|] == v;
    var twice := Overwrite(once, |v|, i);
    assert twice[..|v|] == once[..|v|];
    assert twice == twice[..|v|] + twice[|v|..|v| + |i|];
  }

  /** An upload that covers a whole buffer replaces its contents by the chunk. */
  lemma UploadFillsBuffer(bytes: seq<byte>, chunk: seq<byte>)
    requires |bytes| == |chunk|
    ensures Overwrite(bytes, 0, chunk) == chunk
  {
    assert Overwrite(bytes, 0, chunk) == Overwrite(bytes, 0, chunk)[0..|chunk|];
  }

  // ---------------------------------------------------------------- passes

  /** Colour target of a frame: with MSAA the multisampled texture, cleared
      and resolved into the resolve texture, both cycled; without, the
      swapchain texture itself, cleared and stored. */
  function ColorTargetFor(samples: SampleCount, msaa: Ptr, resolve: Ptr, swapchain: Ptr): ColorTargetInfo
  {
    if samples != Samples1
    then ColorTargetInfo(msaa, resolve, Clear, Resolve, true, true)
    else ColorTargetInfo(swapchain, Null, Clear, Store, false, false)
  }

  /** Depth target of a frame: cleared to 1.0, contents and stencil not kept, cycled. */
  function DepthTargetFor(depth: Ptr): DepthTargetInfo
  {
    DepthTargetInfo(depth, 1.0, Clear, DontCareStore, DontCareLoad, DontCareStore, true)
  }

  /** `EndPass`: end the render pass, then with MSAA blit the resolve texture
      onto the swapchain texture at the window's size. */
  function EndPassCommands(samples: SampleCount, resolve: Ptr, commandBuffer: Ptr, pass: Ptr, swapchain: Ptr,
                           width: u32, height: u32): seq<Command>
  {
    [EndRenderPass(pass)] + if samples != Samples1 then [Blit(commandBuffer, resolve, swapchain, width, height)] else []
  }

  /** The frame rendered into `color` ends up on `swapchain`: either it was
      stored there directly, or it was rendered into a real texture, resolved
      into a real texture, and a later command blits that onto `swapchain`. */
  predicate ReachesSwapchain(color: ColorTargetInfo, later: seq<Command>, swapchain: Ptr)
  {
    || (color.store == Store && color.texture == swapchain)
    || (color.store == Resolve && color.texture.Addr? && color.resolveTexture.Addr?
        && exists i | 0 <= i < |later| ::
             later[i].Blit? && later[i].source == color.resolveTexture && later[i].destination == swapchain)
  }

  /** With the MSAA and resolve slots filled whenever MSAA is on, the frame
      always reaches the swapchain texture. */
  lemma FrameReachesSwapchain(samples: SampleCount, msaa: Ptr, resolve: Ptr, cb: Ptr, pass: Ptr, swapchain: Ptr,
                              width: u32, height: u32)
    requires samples != Samples1 ==> msaa.Addr? && resolve.Addr?
    ensures ReachesSwapchain(ColorTargetFor(samples, msaa, resolve, swapchain),
                             EndPassCommands(samples, resolve, cb, pass, swapchain, width, height), swapchain)
  {
    if samples != Samples1 {
      var later := EndPassCommands(samples, resolve, cb, pass, swapchain, width, height);
      assert later[1].Blit? && later[1].source == resolve;
    }
  }

  /** An MSAA frame whose MSAA or resolve texture is missing (the creation
      that `Initialize` does not check failed) reaches the swapchain by no
      route, although the pass still opens and the blit is still issued. */
  lemma MissingMsaaTargetLosesFrame(samples: SampleCount, msaa: Ptr, resolve: Ptr, cb: Ptr, pass: Ptr, swapchain: Ptr,
                                    width: u32, height: u32)
    requires samples != Samples1 && (msaa.Null? || resolve.Null?)
    ensures !ReachesSwapchain(ColorTargetFor(samples, msaa, resolve, swapchain),
                              EndPassCommands(samples, resolve, cb, pass, swapchain, width, height), swapchain)
    ensures EndPassCommands(samples, resolve, cb, pass, swapchain, width, height)[1].Blit?
  {
  }

  /** The blit happens exactly when MSAA is on. */
  lemma BlitIffMultisampled(samples: SampleCount, resolve: Ptr, cb: Ptr, pass: Ptr, swapchain: Ptr, width: u32, height: u32)
    ensures var cmds := EndPassCommands(samples, resolve, cb, pass, swapchain, width, height);
      && cmds[0] == EndRenderPass(pass)
      && ((exists i | 0 <= i < |cmds| :: cmds[i].Blit?) <==> samples != Samples1)
  {
    var cmds := EndPassCommands(samples, resolve, cb, pass, swapchain, width, height);
    if samples != Samples1 {
      assert cmds[1].Blit?;
    }
  }
}
