/** Host-side services of SDL that the engine relies on: heap blocks from
    `SDL_malloc`/`SDL_free` and whole-file reads with `SDL_LoadFile`. The
    file system is a fixed map from path to contents. */
module HostMemory {
  import opened Types

  /** A buffer `SDL_LoadFile` returned; it must be released with `SDL_free`. */
  class FileBuffer {
    const bytes: seq<byte>

    constructor (bytes: seq<byte>)
      ensures this.bytes == bytes
    {
      this.bytes := bytes;
    }
  }

  class Host {
    /** The files `SDL_LoadFile` can read. */
    const files: map<string, seq<byte>>
    /** Heap blocks allocated and not yet freed. */
    var blocks: set<object>
    /** Calls of `SDL_free` on a block that was not live. */
    var badFrees: nat

    constructor (files: map<string, seq<byte>>)
      ensures this.files == files && blocks == {} && badFrees == 0
    {
      this.files := files;
      blocks, badFrees := {}, 0;
    }

    /** `SDL_malloc` for the object `o`: may fail, in which case `o` is not
        a block and must not be used. */
    method Malloc(o: object) returns (ok: bool)
      requires o !in blocks
      modifies this`blocks
      ensures blocks == if ok then old(blocks) + {o} else old(blocks)
    {
      ok :| true;
      if ok {
        blocks := blocks + {o};
      }
    }

    /** `SDL_free`: null is ignored; freeing anything but a live block is counted. */
    method Free(o: object?)
      modifies this`blocks, this`badFrees
      ensures o == null ==> blocks == old(blocks) && badFrees == old(badFrees)
      ensures o != null && o in old(blocks) ==> blocks == old(blocks) - {o} && badFrees == old(badFrees)
      ensures o != null && o !in old(blocks) ==> blocks == old(blocks) && badFrees == old(badFrees) + 1
    {
      if o != null {
        if o in blocks {
          blocks := blocks - {o};
        } else {
          badFrees := badFrees + 1;
        }
      }
    }

    /** `SDL_LoadFile`: null when the file is missing or the read fails,
        otherwise a fresh block holding the whole file. */
    method LoadFile(path: string) returns (buffer: FileBuffer?)
      modifies this`blocks
      ensures path !in files ==> buffer == null
      ensures buffer == null ==> blocks == old(blocks)
      ensures buffer != null ==> fresh(buffer) && buffer.bytes == files[path] && blocks == old(blocks) + {buffer}
    {
      var ok: bool :| true;
      if ok && path in files {
        buffer := new FileBuffer(files[path]);
        blocks := blocks + {buffer};
      } else {
        buffer := null;
      }
    }
  }
}
