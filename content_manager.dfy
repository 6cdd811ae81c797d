/** The content manager's shader cache: compiled shaders keyed by the path
    they were loaded from. A failed compile is cached too, as a null shader. */
module Content {
  import opened Types
  import opened Gpu
  import opened HostMemory
  import opened Rendering

  /** The cache after a load of `path` that reached the compiler. */
  function Cached(cache: map<string, Ptr>, path: string, shader: Ptr): (r: map<string, Ptr>)
    ensures path in r && r[path] == shader
    ensures forall p | p in cache && p != path :: p in r && r[p] == cache[p]
    ensures r.Keys == cache.Keys + {path}
  {
    cache[path := shader]
  }

  /** The cache after unloading `path`. */
  function Evicted(cache: map<string, Ptr>, path: string): (r: map<string, Ptr>)
    ensures path !in r
    ensures forall p | p in cache && p != path :: p in r && r[p] == cache[p]
    ensures r.Keys == cache.Keys - {path}
  {
    cache - {path}
  }

  /** Loading a path the cache did not hold and unloading it again gives
      back the cache as it was, whatever the compiler returned. */
  lemma LoadThenUnloadRestores(cache: map<string, Ptr>, path: string, shader: Ptr)
    requires path !in cache
    ensures Evicted(Cached(cache, path, shader), path) == cache
  {
    var r := Evicted(Cached(cache, path, shader), path);
    assert r.Keys == cache.Keys;
  }

  /** Unloading a path the cache does not hold changes nothing. */
  lemma UnloadAbsentKeeps(cache: map<string, Ptr>, path: string)
    requires path !in cache
    ensures Evicted(cache, path) == cache
  {
    assert Evicted(cache, path).Keys == cache.Keys;
  }

  /** Loading another path keeps the entry an earlier load of `path` left,
      so a later lookup of `path` still finds it: a cached null stays null. */
  lemma CachedLoadIsSticky(cache: map<string, Ptr>, path: string, shader: Ptr, other: string, shader2: Ptr)
    requires other != path
    ensures path in Cached(Cached(cache, path, shader), other, shader2)
    ensures Cached(Cached(cache, path, shader), other, shader2)[path] == shader
  {
  }

  class ContentManager {
    /** The service that compiles and destroys shaders. */
    const render: Service
    /** `Context::GetBasePath()`, the prefix of every path loaded. */
    const basePath: string
    /** `mShaders`. */
    var shaders: map<string, Ptr>

    constructor (render: Service, basePath: string)
      ensures this.render == render && this.basePath == basePath && shaders == map[]
    {
      this.render := render;
      this.basePath := basePath;
      shaders := map[];
    }

    /** `LoadShader`: a cached path is answered from the cache with no file
        read and no compile. Otherwise the file at `basePath + path` is read;
        if that fails the result is null and the cache is unchanged. After a
        read the contents are compiled, the buffer is freed, and the path is
        cached with the compiler's result, null included. */
    method LoadShader(path: string, stage: ShaderStage,
                      samplers: u32, uniformBuffers: u32, storageBuffers: u32, storageTextures: u32)
      returns (shader: Ptr)
      requires render.Valid()
      modifies render.device, render.host`blocks, render.host`badFrees, this`shaders
      ensures render.Valid() && render.StreamKept()
      ensures render.host.blocks == old(render.host.blocks) && render.host.badFrees == old(render.host.badFrees)
      ensures path in old(shaders) ==>
                shader == old(shaders[path]) && shaders == old(shaders) && render.Created(Null, Shader(ShaderInfo(stage, [], 0, 0, 0, 0)))
      ensures path !in old(shaders) && path !in shaders ==>
                shader.Null? && shaders == old(shaders) && render.Created(Null, Shader(ShaderInfo(stage, [], 0, 0, 0, 0)))
      ensures path !in old(shaders) && path in shaders ==>
                && shaders == Cached(old(shaders), path, shader)
                && basePath + path in render.host.files
                && render.Created(shader, Shader(ShaderInfo(stage, render.host.files[basePath + path],
                                                            samplers, uniformBuffers, storageBuffers, storageTextures)))
    {
      if path in shaders {
        return shaders[path];
      }
      var code := render.host.LoadFile(basePath + path);
      if code == null {
        return Null;
      }
      assert code.bytes[..|code.bytes|] == code.bytes;
      shader := render.CreateShader(stage, code.bytes, |code.bytes|, samplers, uniformBuffers, storageBuffers, storageTextures);
      render.host.Free(code);
      shaders := Cached(shaders, path, shader);
    }

    /** `UnloadShader`: a cached path has its shader destroyed (a cached
        null destroys nothing) and leaves the cache; other paths stay. */
    method UnloadShader(path: string)
      requires render.Valid()
      modifies render.device, this`shaders
      ensures render.Valid() && render.StreamKept()
      ensures shaders == Evicted(old(shaders), path)
      ensures path in old(shaders) ==> render.ReleasedOne(old(shaders[path]))
      ensures path !in old(shaders) ==> render.ReleasedOne(Null)
    {
      if path in shaders {
        render.DestroyShader(shaders[path]);
        shaders := Evicted(shaders, path);
      }
    }
  }
}
