# cube-engine core, modelled in Dafny

This project models the core of a small SDL3 GPU engine:

- **The render service** (`Rendering.Service`) owns the GPU device, the sample count, the depth, MSAA and resolve textures, and a registry of named graphics pipelines. It creates and destroys shaders, pipelines, textures and meshes, resizes its targets, draws meshes and lights, and opens and closes the frame's render pass.
- **The content manager** (`Content.ContentManager`) keeps a cache of compiled shaders, keyed by the path they were loaded from.
- **The physics layer rules** (`PhysicsLayers`) are the object-layer and broad-phase-layer rules handed to Jolt.
- **Two build scripts** (`ShaderHeaders`) compile GLSL sources with `glslc` and turn the SPIR-V into C headers of byte arrays.
- **The orbit camera** (`Cameras.Camera`) caches its projection and view matrices behind dirty flags.
- **The older renderer** (`LegacyRenderer.Renderer`) is the single-device, vertex-only mesh path the render service replaced.

SDL, the host allocator and the file system are modelled as state the core acts on:

- `Gpu.GpuDevice` holds the live objects by handle, the recorded command stream, pending command buffers and faults. Its calls that may fail do so nondeterministically.
- `HostMemory.Host` holds the heap blocks and the files.

The service's command sequences are given a meaning by a reference reading, `Passes.Run`, which tracks what is bound and which draws a pass receives. The draw helpers are proved against that reading.

The two scripts' loops are modelled twice:

- as functions (`ProcessFile`, `ProcessAll`), about which the whole-loop properties are proved;
- as a `while` loop (`ProcessListing`), proved equal to those functions.

Every defect the model exhibits is modelled as written (see the last lines of "Left out"). None of them is corrected.

## Model

| member | source | states |
|---|---|---|
| RenderPlan.VertexLayoutTilesPitch | source/graphics/RenderService.cpp:161-190 | position, normal and texture coordinate sit at locations 0, 1, 2 of buffer slot 0 and tile the 32-byte vertex with no gap and no overlap |
| RenderPlan.PackedAttributesDisjoint | source/graphics/RenderService.cpp:161-190 | in a packed layout, an earlier attribute ends before a later one starts, and every attribute ends within the pitch |
| RenderPlan.PackedStaysInside | source/graphics/RenderService.cpp:161-190 | in a packed layout, every attribute lies between the start offset and the pitch |
| RenderPlan.PipelineInfoUsesServiceLayout | source/graphics/RenderService.cpp:155-226 | every pipeline the service requests uses the shared layout, the service's sample count and the given colour format |
| RenderPlan.ChooseSampleCount | source/graphics/RenderService.cpp:42-50 | 4x MSAA exactly when the device supports it for the swapchain format, otherwise one sample |
| RenderPlan.PipelineInfoFor | source/graphics/RenderService.cpp:155-226 | the pipeline request from two shaders, a colour format and a sample count; `PipelineInfoUsesServiceLayout` states its layout |
| RenderPlan.DepthTextureInfo | source/graphics/RenderService.cpp:265-284 | the depth texture request: D16, depth-stencil target, at the given size and sample count; `CreateDepthTexture` creates exactly it |
| RenderPlan.MsaaTextureInfo | source/graphics/RenderService.cpp:286-305 | the MSAA texture request: a colour target in the swapchain format at the given size and sample count; `CreateMSAATexture` creates exactly it |
| RenderPlan.ResolveTextureInfo | source/graphics/RenderService.cpp:307-326 | the resolve texture request: a single-sampled colour and sampler texture in the swapchain format; `CreateResolveTexture` creates exactly it |
| RenderPlan.MeshDrawCommands | source/graphics/RenderService.cpp:449-468 | the commands `DrawMesh` records; `DrawMeshAddsOneDraw` and `DrawWithoutPassDrawsNothing` state what they draw |
| RenderPlan.LightDrawCommands | source/graphics/RenderService.hpp:87-95 | the commands `DrawLight` records; `DrawLightAddsOneDraw` and `DrawWithoutPassDrawsNothing` state what they draw |
| RenderPlan.DrawMeshAddsOneDraw | source/graphics/RenderService.cpp:449-468 | in an open pass, drawing a mesh adds exactly one draw. The draw reads the mesh's vertex buffer under the bound pipeline and uniform. With no index buffer it counts `vertexSize` vertices; otherwise it indexes `indexCount` 16-bit indices |
| RenderPlan.DrawWithoutPassDrawsNothing | source/graphics/RenderService.cpp:449-468 | with a null render pass, the mesh and light helpers add no draw |
| RenderPlan.DrawLightAddsOneDraw | source/graphics/RenderService.hpp:87-95 | drawing a light adds one non-indexed draw of `vertexSize` vertices that sees the pushed matrix |
| RenderPlan.BoundPipelineReachesDraw | source/graphics/RenderService.cpp:112-120 | binding a pipeline and then drawing a mesh draws with that pipeline |
| RenderPlan.StagingLayout | source/graphics/RenderService.cpp:394-397 | whatever the staging buffer held, copying the vertex bytes and then the index bytes leaves their concatenation. The two upload regions read the inputs back |
| RenderPlan.UploadFillsBuffer | source/graphics/RenderService.cpp:399-430 | an upload covering a whole buffer replaces its contents with the uploaded bytes |
| RenderPlan.ColorTargetFor | source/graphics/RenderService.cpp:491-507 | the colour target: the MSAA texture resolved into the resolve texture with MSAA, the swapchain texture stored directly without; `FrameReachesSwapchain` states where the frame lands |
| RenderPlan.DepthTargetFor | source/graphics/RenderService.cpp:509-519 | the depth target: the depth texture, cleared to 1.0, with neither depth nor stencil kept; `AcquireFrame` opens the pass on it |
| RenderPlan.EndPassCommands | source/graphics/RenderService.cpp:535-557 | the commands `EndPass` records; `BlitIffMultisampled` states their shape |
| RenderPlan.FrameReachesSwapchain | source/graphics/RenderService.cpp:535-557 | when the MSAA and resolve textures exist, the rendered frame reaches the swapchain texture: stored directly without MSAA, or resolved and then blitted with it |
| RenderPlan.MissingMsaaTargetLosesFrame | source/graphics/RenderService.cpp:491-519 | with MSAA on and a missing MSAA or resolve texture, the frame reaches the swapchain by no route, yet the blit is still issued |
| RenderPlan.BlitIffMultisampled | source/graphics/RenderService.cpp:535-557 | `EndPass` first ends the pass, and it blits exactly when MSAA is on |
| Rendering.MeshHandle.constructor | source/graphics/MeshHandle.hpp:6-13 | a block just taken from `SDL_malloc`: both buffer pointers hold garbage |
| Rendering.RenderState.constructor | source/graphics/RenderState.hpp:5-12 | a block just taken from `SDL_malloc`: the command buffer, swapchain texture and pass pointers hold garbage |
| Rendering.ShadersReleasedAfterPipeline | source/graphics/RenderService.cpp:63-99 | creating two shaders and a pipeline, then releasing the shaders, leaves only the pipeline alive |
| Rendering.ResizedSlotsHold | source/graphics/RenderService.cpp:138-153 | after a resize, each new slot holds its texture at the new size |
| Rendering.ResizedSlotsReleased | source/graphics/RenderService.cpp:138-153 | after a resize, none of the old slot textures is alive |
| Rendering.ResizedSlotsKeepOthers | source/graphics/RenderService.cpp:138-153 | a resize leaves every other live object unchanged and creates nothing but the new slots |
| Rendering.Replaced | source/graphics/RenderService.cpp:138-153 | one resized slot: the old texture is gone, the new one is live, and nothing else changes |
| Rendering.Service.constructor | source/macros/singleton.hpp:4-13 | the static instance starts with no device, null slots, one sample and an empty registry, and satisfies the service invariant |
| Rendering.Service.CreateDepthTexture | source/graphics/RenderService.cpp:265-284 | creates one D16 depth target at the service's sample count, or yields null and changes nothing |
| Rendering.Service.CreateMSAATexture | source/graphics/RenderService.cpp:286-305 | creates one colour target in the swapchain format at the service's sample count, or yields null |
| Rendering.Service.CreateResolveTexture | source/graphics/RenderService.cpp:307-326 | creates one single-sampled colour and sampler texture in the swapchain format, or yields null |
| Rendering.Service.DestroyTexture | source/graphics/RenderService.cpp:328-332 | releases exactly the given texture; null releases nothing |
| Rendering.Service.ResizeDepth | source/graphics/RenderService.cpp:139-142 | a non-null depth slot is released and replaced by a new depth texture at the new size; a null one stays |
| Rendering.Service.ResizeMsaa | source/graphics/RenderService.cpp:144-147 | a non-null MSAA slot is released and replaced by a new MSAA texture at the new size; a null one stays |
| Rendering.Service.ResizeResolve | source/graphics/RenderService.cpp:149-152 | a non-null resolve slot is released and replaced by a new resolve texture at the new size; a null one stays |
| Rendering.Service.SetViewport | source/graphics/RenderService.cpp:138-153 | each non-null slot is released and re-created at the new size, and a null slot stays null. The live objects are the three slot replacements, with fresh handles. MSAA slots still imply MSAA |
| Rendering.Service.CreatePipeline | source/graphics/RenderService.cpp:155-226 | on failure the registry is unchanged. On success the name maps to the new pipeline and other names keep theirs. A live pipeline the name mapped before is leaked, not released |
| Rendering.Service.DestroyPipeline | source/graphics/RenderService.cpp:104-110 | releases and erases exactly the named entry; an absent name changes nothing |
| Rendering.Service.UsePipeline | source/graphics/RenderService.cpp:112-120 | binds the named pipeline on the pass; an unknown name records nothing |
| Rendering.Service.CreateShader | source/graphics/RenderService.cpp:228-257 | creates a shader from the first `codeSize` bytes with the given stage and resource counts, or yields null and changes nothing |
| Rendering.Service.DestroyShader | source/graphics/RenderService.cpp:259-263 | releases exactly the given shader; null releases nothing |
| Rendering.Service.Shutdown | source/graphics/RenderService.cpp:122-136 | releases the three slots and every registered pipeline, gives back the window, destroys the device and nulls the device field |
| Rendering.Service.ReleaseSlots | source/graphics/RenderService.cpp:123-125 | the three slot textures, and nothing else, are released |
| Rendering.Service.ReleasePipelines | source/graphics/RenderService.cpp:127-129 | the loop over the registry releases exactly the registered pipelines |
| Rendering.Service.OpenDevice | source/graphics/RenderService.cpp:25-50 | a fresh, empty device is opened and the window claimed. On success the sample count is the one the device supports |
| Rendering.Service.CreateTargets | source/graphics/RenderService.cpp:52-61 | succeeds exactly when the depth texture exists. With MSAA the MSAA and resolve textures are created too, either possibly null. The live objects are exactly the ones added |
| Rendering.Service.CreateMultisampleTargets | source/graphics/RenderService.cpp:57-61 | an MSAA and a resolve texture at the window size, each possibly null, are the only new live objects |
| Rendering.Service.CreateDeviceObjects | source/graphics/RenderService.cpp:52-99 | succeeds exactly when the depth texture exists; then the MSAA targets (with MSAA) and the built-in pipelines follow, and every new live object belongs to the service |
| Rendering.Service.CreateBuiltinPipeline | source/graphics/RenderService.cpp:63-80 | a pipeline is built over two new shaders, and both shaders are released again. On success the pipeline is the only new live object; on failure there is none |
| Rendering.Service.Initialize | source/graphics/RenderService.cpp:23-102 | succeeds exactly when the device is created, the window claimed and the depth texture created. The sample count is 4 iff supported. The targets are at the window size. The registry only gains the built-in pipelines, and every live object belongs to the service. MSAA slots imply MSAA afterwards only when both slots were null before, as on a first call; on one-sample success the old slots are kept |
| Rendering.Service.CreateDefaultPipelines | source/graphics/RenderService.cpp:63-99 | builds `default_mesh` and `light_source` from the compiled-in headers; every new live object is one of them |
| Rendering.Service.DestroyMesh | source/graphics/RenderService.cpp:435-447 | null is ignored. Otherwise each non-null buffer pointer is released, garbage included, and the block is freed |
| Rendering.Service.ReleaseMeshBuffers | source/graphics/RenderService.cpp:437-443 | each non-null buffer pointer is released in turn, garbage included |
| Rendering.Service.CreateMesh | source/graphics/RenderService.cpp:334-433 | null on any allocation or map failure, and then nothing created remains. A failed vertex buffer also releases the garbage index pointer, recorded as a fault. The mesh records its sizes and counts. After an upload its buffers hold exactly the first `vertexSize`/`indexSize` input bytes and one submit was recorded; without a command buffer, nothing is uploaded |
| Rendering.Service.BuildMesh | source/graphics/RenderService.cpp:349-432 | once the handle is allocated: on failure the handle is freed and nothing created remains; on success the mesh holds two new buffers of its sizes, filled when uploaded |
| Rendering.Service.CreateVertexBuffer | source/graphics/RenderService.cpp:350-360 | adds one vertex buffer of `vertexSize` bytes. On failure the mesh is destroyed |
| Rendering.Service.CreateIndexBuffer | source/graphics/RenderService.cpp:362-372 | adds one index buffer of `indexSize` bytes, even for size 0. On failure the mesh and its vertex buffer are released |
| Rendering.Service.UploadMesh | source/graphics/RenderService.cpp:374-433 | a missing or unmappable staging buffer destroys the mesh. Otherwise the buffers receive the bytes and the staging buffer is released |
| Rendering.Service.AbandonMesh | source/graphics/RenderService.cpp:380-391 | the staging buffer, if any, and both mesh buffers are released and the handle freed; nothing else changes |
| Rendering.Service.TransferMeshData | source/graphics/RenderService.cpp:386-430 | a failed map changes nothing. Otherwise the staging buffer is released, and with a command buffer the two mesh buffers receive their bytes |
| Rendering.UploadThroughStaging | source/graphics/RenderService.cpp:386-430 | the same on any device, and no pipeline is created, changed or released |
| Rendering.StageMeshData | source/graphics/RenderService.cpp:394-397 | the staging buffer ends up holding the vertex bytes followed by the index bytes, unmapped |
| Rendering.CopyMeshData | source/graphics/RenderService.cpp:399-430 | with a command buffer, the vertex and index buffers receive their bytes and one submit is recorded. Without one, nothing is uploaded. The staging buffer is released either way |
| Rendering.Service.DrawMesh | source/graphics/RenderService.cpp:449-468 | records exactly `MeshDrawCommands`, whose meaning `DrawMeshAddsOneDraw` states |
| Rendering.Service.DrawCube | source/graphics/RenderService.hpp:66-85 | records the same commands as `DrawMesh` |
| Rendering.Service.DrawLight | source/graphics/RenderService.hpp:87-95 | records exactly `LightDrawCommands`, whose meaning `DrawLightAddsOneDraw` states |
| Rendering.Service.GetDevice | source/graphics/RenderService.hpp:97-99 | the device, which is valid and not destroyed while the service invariant holds |
| Rendering.Service.GetDepthTexture | source/graphics/RenderService.hpp:101-103 | the depth slot: null or a texture issued by the device and shared with no other slot |
| Rendering.Service.GetMSAATexture | source/graphics/RenderService.hpp:105-107 | the MSAA slot: null or a texture shared with no other slot, non-null only with MSAA on |
| Rendering.Service.GetResolveTexture | source/graphics/RenderService.hpp:109-111 | the resolve slot: null or a texture shared with no other slot, non-null only with MSAA on |
| Rendering.Service.BeginPass | source/graphics/RenderService.cpp:470-533 | null when the block, the command buffer or the swapchain texture is missing, and the block is then freed. A command buffer acquired by then stays pending. On success the pass opens on the frame's colour and depth targets |
| Rendering.Service.AcquireFrame | source/graphics/RenderService.cpp:477-528 | acquires a command buffer and then the swapchain texture, and opens the pass on the targets `ColorTargetFor`/`DepthTargetFor` describe |
| Rendering.Service.EndPass | source/graphics/RenderService.cpp:535-557 | records exactly `EndPassCommands` and submits nothing |
| Content.ContentManager.constructor | source/ContentManager.hpp:16 | a new manager has the given render service and base path and an empty cache |
| Content.Cached | source/ContentManager.cpp:40 | the loaded path maps to its shader, and every other path keeps its entry |
| Content.Evicted | source/ContentManager.cpp:48 | the unloaded path is gone, and every other path keeps its entry |
| Content.LoadThenUnloadRestores | source/ContentManager.cpp:8-50 | loading an uncached path and then unloading it gives back the cache as it was |
| Content.UnloadAbsentKeeps | source/ContentManager.cpp:44-50 | unloading a path that is not cached changes nothing |
| Content.CachedLoadIsSticky | source/ContentManager.cpp:16-19 | a later load of another path keeps the earlier entry, null included |
| Content.ContentManager.LoadShader | source/ContentManager.cpp:8-42 | a cached path is answered from the cache, with no read and no compile. A failed read gives null and leaves the cache unchanged. Otherwise the file at base path + path is compiled, the buffer freed, and the result cached, null included |
| Content.ContentManager.UnloadShader | source/ContentManager.cpp:44-50 | a cached path's shader is destroyed and its entry erased; other paths stay |
| PhysicsLayers.ObjectPairShouldCollide | source/physics/PhysicsService.hpp:54-64 | the object-pair filter; `PairFilterRule` and `PairFilterSymmetric` state its rule |
| PhysicsLayers.ObjectVsBroadPhaseShouldCollide | source/physics/PhysicsService.hpp:118-130 | the object-versus-broad-phase filter; `BroadPhaseFilterAgrees` ties it to the pair filter |
| PhysicsLayers.BoxLayer | source/physics/PhysicsService.cpp:73-74 | a box is on the moving layer exactly when it is dynamic, and always on a valid layer |
| PhysicsLayers.PairFilterRule | source/physics/PhysicsService.hpp:54-64 | a non-moving object collides only with a moving one, and a moving object collides with everything |
| PhysicsLayers.PairFilterSymmetric | source/physics/PhysicsService.hpp:54-64 | on valid layers the pair filter is symmetric, and it is true iff either layer is moving |
| PhysicsLayers.StaticBoxesNeverCollide | source/physics/PhysicsService.hpp:54-64 | two static boxes never collide |
| PhysicsLayers.InvalidLayerNeverCollides | source/physics/PhysicsService.hpp:54-64 | an out-of-range first layer makes both filters refuse |
| PhysicsLayers.BroadPhaseLayerInterface.constructor | source/physics/PhysicsService.hpp:84-88 | the table maps each object layer to the broad-phase layer with the same index |
| PhysicsLayers.BroadPhaseLayerInterface.GetNumBroadPhaseLayers | source/physics/PhysicsService.hpp:90-92 | there are as many broad-phase layers as object layers, one for each |
| PhysicsLayers.BroadPhaseLayerInterface.GetBroadPhaseLayer | source/physics/PhysicsService.hpp:94-97 | a valid object layer maps to the broad-phase layer of the same index, below the layer count |
| PhysicsLayers.BroadPhaseLayerInterface.BroadPhaseFilterAgrees | source/physics/PhysicsService.hpp:118-130 | filtering against the broad-phase layer of an object decides the same as the object-pair filter |
| Cameras.ClampPitch | source/Camera.cpp:52-64 | the result lies in [-89, 89]. It is the argument when in range, and the nearer bound otherwise |
| Cameras.ClampPitchIdempotentMonotone | source/Camera.cpp:52-64 | clamping twice is clamping once, and clamping keeps order |
| Cameras.Forward | source/Camera.cpp:76-82 | the forward direction from pitch and yaw in degrees; `ForwardIsUnit` states its length |
| Cameras.ForwardIsUnit | source/Camera.cpp:76-82 | wherever cos² + sin² = 1, the forward direction has length 1, whatever the pitch and yaw |
| Cameras.Position | source/Camera.cpp:84-86 | the forward direction scaled by `distance`; `PositionAtDistance` states where that puts the camera |
| Cameras.PositionAtDistance | source/Camera.cpp:84-86 | wherever cos² + sin² = 1, the camera sits on the sphere of radius `|distance|` around the origin it looks at |
| Cameras.ProjectionFor | source/Camera.cpp:90 | the perspective of the field of view in radians, the aspect ratio and the fixed planes 0.1 and 100 |
| Cameras.ViewFor | source/Camera.cpp:99-100 | the look-at from the camera's position towards the origin, with +y up |
| Cameras.Camera.constructor | source/Camera.cpp:3-11 | the four values are stored as given, pitch unclamped, and both caches are dirty |
| Cameras.Camera.SetFov | source/Camera.cpp:38-41 | stores the field of view and marks only the projection dirty |
| Cameras.Camera.SetAspectRatio | source/Camera.cpp:43-46 | stores the aspect ratio and marks only the projection dirty |
| Cameras.Camera.SetAspectRatioOf | source/Camera.cpp:48-50 | the aspect ratio becomes width / height |
| Cameras.Camera.SetPitch | source/Camera.cpp:52-64 | stores the clamped pitch and marks only the view dirty |
| Cameras.Camera.SetYaw | source/Camera.cpp:66-69 | stores the yaw and marks only the view dirty |
| Cameras.Camera.SetDistance | source/Camera.cpp:71-74 | stores the distance and marks only the view dirty |
| Cameras.Camera.GetPosition | source/Camera.cpp:84-86 | wherever cos² + sin² = 1, the returned position lies `|distance|` from the origin |
| Cameras.Camera.GetProjectionMatrix | source/Camera.cpp:88-95 | the result is always the projection of the current fov and aspect ratio. A clean cache is not recomputed, and the cache is clean afterwards |
| Cameras.Camera.GetViewMatrix | source/Camera.cpp:97-105 | the result is always the look-at from the current position towards the origin. A clean cache is not recomputed, and the cache is clean afterwards |
| ShaderHeaders.IsShaderSource | scripts/build-shaders.py:24 | a file is processed exactly when its name ends in `.vert` or `.frag`; `ProcessFile` skips the rest |
| ShaderHeaders.Identifier | scripts/build-shaders.py:40 | the array name of a file; `IdentifierShape` and the four identifier lemmas state what it is |
| ShaderHeaders.IdentifierShape | scripts/build-shaders.py:39-40 | the array name is the file name's length plus `_SHADER`, with no dot and no lower-case ASCII letter in the mangled part |
| ShaderHeaders.BasicTriangleVertIdentifier | scripts/build-shaders.py:39-40 | `basic_triangle.vert` becomes the name the render service uses, not the one the script's comment gives |
| ShaderHeaders.BasicTriangleFragIdentifier | scripts/build-shaders.py:39-40 | `basic_triangle.frag` becomes the name the render service uses |
| ShaderHeaders.LightSourceVertIdentifier | scripts/build-shaders.py:39-40 | `light_source.vert` becomes the name the render service uses |
| ShaderHeaders.LightSourceFragIdentifier | scripts/build-shaders.py:39-40 | `light_source.frag` becomes the name the render service uses |
| ShaderHeaders.IdentifiersCanCollide | scripts/build-shaders.py:39-40 | two distinct shader files can get the same array name |
| ShaderHeaders.HexValue | scripts/build-shaders.py:49 | a recognised digit is a value below 16 that prints back as the same digit, and anything else is not a digit |
| ShaderHeaders.ByteLiteral | scripts/build-shaders.py:49 | a byte prints as `0x` followed by its high and its low lower-case hex digit |
| ShaderHeaders.HexBody | scripts/build-shaders.py:49 | the joined literals take six characters per byte, less the last separator |
| ShaderHeaders.ParseHexBody | scripts/build-shaders.py:49 | reads an array body back into bytes; `HexBodyRoundTrip` makes it the inverse of `HexBody` |
| ShaderHeaders.HexBodyRoundTrip | scripts/build-shaders.py:49 | parsing the array body gives back the compiled bytes |
| ShaderHeaders.HexBodyInjective | scripts/build-shaders.py:49 | distinct compiled shaders give distinct header bodies |
| ShaderHeaders.HeaderText | scripts/build-shaders.py:47-51 | the header text: opening line, array body, closing lines with the size symbol; `HeaderHoldsBytes` states where the bytes sit |
| ShaderHeaders.HeaderHoldsBytes | scripts/build-shaders.py:46-51 | the array body sits right after the opening line and before the closing lines, and reads back as the compiled bytes |
| ShaderHeaders.BuildHeadersServeRenderService | scripts/build-shaders.py:39-51 | the four built-in headers from the build script declare every array and `_SIZE` symbol the render service needs, each size the array's length |
| ShaderHeaders.IncludeKeeps | scripts/build-shaders.py:46-51 | including a header for another name keeps every earlier declaration |
| ShaderHeaders.CompileHeaderLacksSize | scripts/compile-shaders.py:43 | a header from the in-tree script declares `_LEN` but not the `_SIZE` symbol the render service needs |
| ShaderHeaders.JoinPath | scripts/build-shaders.py:25-26 | the joined path ends with the file name |
| ShaderHeaders.JoinPathInjective | scripts/build-shaders.py:25-26 | distinct names in one directory give distinct paths |
| ShaderHeaders.SpvPath | scripts/build-shaders.py:26 | the compiled file's path ends in `.spv` |
| ShaderHeaders.HeaderPath | scripts/build-shaders.py:46 | the header's path ends in `.h` |
| ShaderHeaders.OutputPathsDistinct | scripts/build-shaders.py:25-46 | the `.spv` and header paths of different files never meet, and no `.spv` path is a header path |
| ShaderHeaders.BuildShadersConfig | scripts/build-shaders.py:13-14 | `build-shaders.py` reads from its first argument and writes `.spv` files and `_SIZE` headers to its second |
| ShaderHeaders.ProcessFile | scripts/build-shaders.py:24-51 | one iteration of the loop; `ProcessFileKeepsOutputs` states what it writes and keeps |
| ShaderHeaders.ProcessAll | scripts/build-shaders.py:23-51 | the whole loop, stopping at the first failed compile; the `ProcessAll…` lemmas state its outcome |
| ShaderHeaders.ProcessAllSucceedsIffAllCompile | scripts/build-shaders.py:23-37 | the loop succeeds exactly when every shader source in the listing compiles |
| ShaderHeaders.ProcessFileKeepsOutputs | scripts/build-shaders.py:23-51 | one successful iteration keeps the outputs of other files and writes its own `.spv` and header |
| ShaderHeaders.ProcessAllWritesOutputs | scripts/build-shaders.py:23-51 | after a successful loop, each shader of the listing has its compiled `.spv` and the header of exactly those bytes |
| ShaderHeaders.ProcessAllFailureRemovesSpv | scripts/build-shaders.py:28-37 | a failed loop stopped at a listed shader that did not compile, and that shader has no `.spv` |
| ShaderHeaders.ProcessAllTouchesOnlyOutputs | scripts/build-shaders.py:23-51 | every path other than the listing's `.spv` and header paths keeps its contents, or its absence |
| ShaderHeaders.ProcessListing | scripts/build-shaders.py:23-51 | the loop, file by file and stopping at the first failed compile, gives exactly `ProcessAll` |
| ShaderHeaders.BuildShaders | scripts/build-shaders.py:8-51 | exit status 1 with nothing changed on a wrong argument count or a missing shaders path. Otherwise a missing output directory is created first. A shaders path that is a plain file then exits 1 with no file written; a directory gives the outcome of `ProcessAll` |
| ShaderHeaders.CompileShaders | scripts/compile-shaders.py:10-43 | exit status 1 with nothing changed without a `shaders` directory. Otherwise the outcome is `ProcessAll` with `.spv` files beside the sources and `_LEN` headers under `source/graphics/shaders` |
| LegacyRenderer.MeshHandle.constructor | source/graphics/Renderer.cpp:42 | a block just taken from `SDL_malloc`: the vertex buffer pointer holds garbage |
| LegacyRenderer.Renderer.constructor | source/macros/singleton.hpp:4-13 | the static instance starts with no device |
| LegacyRenderer.Renderer.Initialize | source/graphics/Renderer.cpp:10-29 | a null window fails before a device is created. Otherwise it succeeds exactly when a device is created and the window is claimed for it |
| LegacyRenderer.Renderer.Shutdown | source/graphics/Renderer.cpp:31-36 | a device is destroyed, without its window being released, and the field is nulled; with no device nothing changes |
| LegacyRenderer.Renderer.DestroyMesh | source/graphics/Renderer.cpp:110-118 | null is ignored. Otherwise a non-null vertex buffer is released and the block freed |
| LegacyRenderer.Renderer.GetDevice | source/graphics/Renderer.hpp:52-54 | the device, which is valid and not destroyed while the renderer's invariant holds |
| LegacyRenderer.Renderer.DrawCube | source/graphics/Renderer.hpp:42-50 | records the push, bind and non-indexed draw of `LightDrawCommands` for the mesh |
| LegacyRenderer.Renderer.CreateMesh | source/graphics/Renderer.cpp:38-108 | null on any allocation or map failure, and then nothing created remains. After an upload the vertex buffer holds exactly the first `vertexSize` bytes and one submit was recorded. The index arguments are never read |
| LegacyRenderer.Renderer.CreateVertexBuffer | source/graphics/Renderer.cpp:50-60 | adds one vertex buffer of `vertexSize` bytes. On failure the mesh is destroyed |
| LegacyRenderer.Renderer.UploadMesh | source/graphics/Renderer.cpp:64-105 | a missing or unmappable staging buffer destroys the mesh; otherwise the vertex bytes are uploaded and the staging buffer released |
| LegacyRenderer.UploadVertices | source/graphics/Renderer.cpp:76-105 | a failed map changes nothing. Otherwise the vertex buffer receives the bytes when a command buffer exists, and the staging buffer is released |
| LegacyRenderer.StageVertices | source/graphics/Renderer.cpp:84-85 | the staging buffer holds exactly the vertex bytes, unmapped |
| LegacyRenderer.CopyVertices | source/graphics/Renderer.cpp:87-105 | with a command buffer, the vertex buffer receives the bytes and one submit is recorded. The staging buffer is released either way |

## Left out

**What the model abstracts or does not cover**

- **SDL behaviour:**
  - SDL's internals are not modelled. Which allocations, maps, command-buffer and swapchain acquisitions succeed is nondeterministic, and the model proves each outcome.
  - Window handling, logging (`LOG_ERROR`, `fprintf`) and `SDL_GetError` are not modelled.
  - Shader compilation by SDL_shadercross is not modelled. A shader is recorded with the bytes, stage and resource counts it was given.
- **Floating point:** floats are reals. glm's `radians`, `cos`, `sin`, `perspective` and `lookAt` are uninterpreted functions the camera receives.
- **Not modelled at all:**
  - `Camera.GetThrowDirection` (source/Camera.cpp:13-36) is not modelled, because it is float vector arithmetic through glm with nothing to state beyond its formula.
  - `PhysicsService`'s runtime (Jolt's allocator, job system, simulation step, body creation beyond its layer choice), and the debug-only `GetBroadPhaseLayerName`.
  - `Scene`, `Transform`, `InputService`, `main` and `Context`, which are outside this model. `ContentManager` takes the base path as a constant.
- **Declared but not defined:**
  - `ContentManager`'s `LoadMesh`, `UnloadMesh` and `Unload`, which no source file defines.
  - `Renderer`'s `CreateDefaultPipeline`, `DestroyDefaultPipeline`, `UseDefaultPipeline`, `CreateDepthStencil` and `DestroyDepthStencil`, which `Renderer.cpp` does not define. `Renderer`'s `window` field is never written.

**Contracts stated weaker than the source, or with an extra requirement**

- Rendering.Service.UsePipeline: requires a device. The recorded command stream lives on the device object, so a call through a service without a device is not modelled.
- Rendering.Service.DrawMesh: requires a device, for the same reason.
- Rendering.Service.DrawCube: requires a device, for the same reason.
- Rendering.Service.DrawLight: requires a device, for the same reason.
- Rendering.Service.EndPass: requires a device, for the same reason. It also takes the window size as parameters, where the source reads it from the context's window.
- LegacyRenderer.Renderer.DrawCube: requires a device, for the same reason.
- Rendering.Service.CreateBuiltinPipeline: requires a device, because `Initialize` reaches it only after the device was opened.
- Rendering.Service.CreateMesh: requires `vertexSize + indexSize` below 2^32, so the 32-bit wrap-around of the staging buffer size is not modelled. It also requires each size to be at most its data's length, since `SDL_memcpy` past the end of the caller's data is undefined behaviour.
- LegacyRenderer.Renderer.CreateMesh: requires `vertexSize` to be at most the data's length, for the same reason.
- Cameras.Camera.SetAspectRatioOf: requires a non-zero height. Float division by zero, giving an infinite or NaN ratio, is not modelled.
- Cameras.ClampPitch: does not model NaN, which passes through both comparisons of `SetPitch` unchanged.
- Cameras.Camera.constructor: leaves the aspect ratio as an arbitrary value, because the source never initialises it.

**The scripts**

- ShaderHeaders.IdentifierShape: models Python's `str.upper` on ASCII letters only. Unicode case mapping is not modelled.
- ShaderHeaders.BuildShaders: models `glslc` as a function from the input path to the bytes it writes, or none. It does not model exceptions such as writing a header into a missing directory or reading an unreadable file. It also does not model `os.path.exists` being true for a directory named like an output file.
- ShaderHeaders.CompileShaders: the same abstractions as `BuildShaders`.
- The listing of the shaders directory is taken as given, in `os.listdir` order.

**Source behaviour reproduced as written**

- **Draw counts:**
  - `DrawMesh` and `DrawLight` pass `vertexSize`, a byte count, as the vertex count.
  - `DrawLight` never binds the index buffer.
- **Mesh creation and destruction:**
  - The render service's `CreateMesh` requests an index buffer even when `indexSize` is 0, and a failure of that request discards the mesh.
  - When the vertex buffer cannot be created, `DestroyMesh` releases the never-written index pointer, recorded as a device fault.
  - `CreateMesh` returns a mesh even when no command buffer could be acquired; its buffers then keep undefined contents.
- **Pipelines:**
  - `CreatePipeline` overwrites a registry entry without releasing the old pipeline, which leaks.
  - `Initialize` does not check for failure of the MSAA and resolve textures, or of the built-in pipelines.
- **Device lifetime:**
  - `Shutdown` nulls only the device field, so the slots and the registry keep stale handles.
  - After such a `Shutdown`, an `Initialize` on a device without 4x MSAA sets one sample but keeps the stale MSAA and resolve slots, so non-null MSAA slots no longer imply MSAA.
  - Both `Initialize` methods drop an earlier device without destroying it, and keep a device whose window claim failed.
- **Frames:** `BeginPass` neither submits nor cancels the command buffer when the swapchain texture is missing.
- **Scripts:**
  - `compile-shaders.py` names the size symbol `_LEN` where the render service expects `_SIZE`.
  - The array names differ from the `BASIC_TRIANGLE_SHADER_VERT` form the scripts' comment gives.
  - Distinct file names can collide after upper-casing.
