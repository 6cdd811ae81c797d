/** The two shader build scripts. Each one compiles every `.vert` and `.frag`
    file of a directory with `glslc` and writes a C header declaring the
    compiled bytes as an `unsigned char` array together with a size
    symbol. `build-shaders.py` takes both directories as arguments and
    names the size `<array>_SIZE`; `compile-shaders.py` uses fixed
    directories and names it `<array>_LEN`. The file system is a map from
    path to contents plus a set of directories, the directory listing is
    given, and `glslc` is a function from input path to the bytes it
    writes, or `None` when it writes nothing. */
module ShaderHeaders {
  import opened Types
  import Rendering

  /** `str.endswith`. */
  predicate EndsWith(s: string, suffix: string)
  {
    |suffix| <= |s| && s[|s| - |suffix|..] == suffix
  }

  /** The extension filter both scripts apply to the directory listing. */
  predicate IsShaderSource(filename: string)
  {
    EndsWith(filename, ".vert") || EndsWith(filename, ".frag")
  }

  // ---------------------------------------------------------------------
  // The array identifier
  // ---------------------------------------------------------------------

  predicate IsLowerAscii(c: char)
  {
    'a' <= c <= 'z'
  }

  function UpperChar(c: char): char
  {
    if IsLowerAscii(c) then (c as int - 32) as char else c
  }

  /** `str.upper` on ASCII, then `str.replace(".", "_")`, of one character:
      both act character by character, so the whole name is this applied
      to each character. */
  function MangleChar(c: char): char
  {
    var u := UpperChar(c);
    if u == '.' then '_' else u
  }

  const IdentifierSuffix: string := "_SHADER"

  /** `filename.upper().replace(".", "_") + "_SHADER"`. */
  function Identifier(filename: string): string
  {
    seq(|filename|, i requires 0 <= i < |filename| => MangleChar(filename[i])) + IdentifierSuffix
  }

  /** The array name has no dot and no lower-case ASCII letter before the
      suffix: every dot of the file name became an underscore, every
      lower-case letter its capital, and every other character stayed. */
  lemma IdentifierShape(filename: string)
    ensures var r := Identifier(filename);
            && |r| == |filename| + |IdentifierSuffix| && EndsWith(r, IdentifierSuffix)
            && (forall i | 0 <= i < |filename| :: r[i] != '.' && !IsLowerAscii(r[i]))
            && (forall i | 0 <= i < |filename| && filename[i] == '.' :: r[i] == '_')
            && (forall i | 0 <= i < |filename| && IsLowerAscii(filename[i]) :: r[i] as int == filename[i] as int - 32)
            && (forall i | 0 <= i < |filename| && filename[i] != '.' && !IsLowerAscii(filename[i]) :: r[i] == filename[i])
  {
    var r := Identifier(filename);
    assert r[|r| - |IdentifierSuffix|..] == IdentifierSuffix;
  }

  /** The basic triangle vertex shader gets the name the render service
      uses, not the `BASIC_TRIANGLE_SHADER_VERT` the script's own comment
      announces. */
  lemma BasicTriangleVertIdentifier()
    ensures Identifier("basic_triangle.vert") == Rendering.BasicTriangleVert
    ensures Identifier("basic_triangle.vert") != "BASIC_TRIANGLE_SHADER_VERT"
  {
    assert Identifier("basic_triangle.vert")[15] == 'V';
  }

  /** The other built-in shaders get the names the render service uses. */
  lemma BasicTriangleFragIdentifier()
    ensures Identifier("basic_triangle.frag") == Rendering.BasicTriangleFrag
  {
    assert Identifier("basic_triangle.frag")[15] == 'F';
  }

  lemma LightSourceVertIdentifier()
    ensures Identifier("light_source.vert") == Rendering.LightSourceVert
  {
    assert Identifier("light_source.vert")[13] == 'V';
  }

  lemma LightSourceFragIdentifier()
    ensures Identifier("light_source.frag") == Rendering.LightSourceFrag
  {
    assert Identifier("light_source.frag")[13] == 'F';
  }

  /** Upper-casing and the dot replacement lose information: two distinct
      shader files of one directory can be given the same array name. */
  lemma IdentifiersCanCollide()
    ensures IsShaderSource("a.vert") && IsShaderSource("A.vert")
    ensures Identifier("a.vert") == Identifier("A.vert")
  {
    assert "a.vert"[1..] == ".vert" && "A.vert"[1..] == ".vert";
  }

  // ---------------------------------------------------------------------
  // The byte array body
  // ---------------------------------------------------------------------

  const HexDigits: string := "0123456789abcdef"

  /** The value of a lower-case hexadecimal digit. */
  function HexValue(c: char): (r: Option<int>)
    ensures r.Some? ==> 0 <= r.value < 16 && HexDigits[r.value] == c
    ensures r.None? ==> c !in HexDigits
  {
    if '0' <= c <= '9' then Some(c as int - '0' as int)
    else if 'a' <= c <= 'f' then Some(c as int - 'a' as int + 10)
    else None
  }

  /** `f"0x{byte:02x}"`: `0x` and exactly two lower-case digits, high digit first. */
  function ByteLiteral(b: byte): (r: string)
    ensures |r| == 4 && r[..2] == "0x"
    ensures HexValue(r[2]) == Some(b as int / 16) && HexValue(r[3]) == Some(b as int % 16)
  {
    "0x" + [HexDigits[b as int / 16], HexDigits[b as int % 16]]
  }

  /** `", ".join(...)` of the byte literals. */
  function HexBody(data: seq<byte>): (r: string)
    ensures |r| == if data == [] then 0 else 6 * |data| - 2
    decreases |data|
  {
    if data == [] then ""
    else if |data| == 1 then ByteLiteral(data[0])
    else ByteLiteral(data[0]) + ", " + HexBody(data[1..])
  }

  /** Reads a header's array body back: literals of the form `0x` and two
      hex digits, separated by `, `, with no separator at either end. */
  function ParseHexBody(s: string): Option<seq<byte>>
    decreases |s|
  {
    if s == [] then Some([])
    else if |s| < 4 || s[..2] != "0x" then None
    else match (HexValue(s[2]), HexValue(s[3]))
      case (Some(hi), Some(lo)) =>
        var b := (hi * 16 + lo) as byte;
        if |s| == 4 then Some([b])
        else if |s| < 6 || s[4..6] != ", " then None
        else
          (match ParseHexBody(s[6..])
           case Some(rest) => if rest == [] then None else Some([b] + rest)
           case None => None)
      case _ => None
  }

  /** Parsing the body the scripts write yields the compiled bytes. */
  lemma {:induction false} HexBodyRoundTrip(data: seq<byte>)
    ensures ParseHexBody(HexBody(data)) == Some(data)
    decreases |data|
  {
    if data == [] {
    } else {
      var s := HexBody(data);
      var lit := ByteLiteral(data[0]);
      assert s[..4] == lit;
      assert s[..2] == "0x";
      var hi, lo := data[0] as int / 16, data[0] as int % 16;
      assert HexValue(s[2]) == Some(hi) && HexValue(s[3]) == Some(lo);
      assert (hi * 16 + lo) as byte == data[0];
      if |data| > 1 {
        assert s[4..6] == ", ";
        assert s[6..] == HexBody(data[1..]);
        HexBodyRoundTrip(data[1..]);
        assert [data[0]] + data[1..] == data;
        assert ParseHexBody(s) == Some([data[0]] + data[1..]);
      } else {
        assert [data[0]] == data;
      }
    }
  }

  /** Distinct compiled shaders give distinct header bodies. */
  lemma HexBodyInjective(a: seq<byte>, b: seq<byte>)
    requires HexBody(a) == HexBody(b)
    ensures a == b
  {
    HexBodyRoundTrip(a);
    HexBodyRoundTrip(b);
  }

  // ---------------------------------------------------------------------
  // The header
  // ---------------------------------------------------------------------

  function ArrayOpening(identifier: string): string
  {
    "unsigned char " + identifier + "[] = {\n"
  }

  function ArrayClosing(identifier: string, sizeSuffix: string): string
  {
    "\n};\n" + "unsigned int " + identifier + sizeSuffix + " = sizeof(" + identifier + ");\n"
  }

  /** The text written to the header file. */
  function HeaderText(identifier: string, data: seq<byte>, sizeSuffix: string): string
  {
    ArrayOpening(identifier) + HexBody(data) + ArrayClosing(identifier, sizeSuffix)
  }

  /** The array body sits right after the opening line of the header and
      parses back to the compiled bytes. */
  lemma HeaderHoldsBytes(identifier: string, data: seq<byte>, sizeSuffix: string)
    ensures var k := |ArrayOpening(identifier)|;
            var t := HeaderText(identifier, data, sizeSuffix);
            k + |HexBody(data)| <= |t| && ParseHexBody(t[k..k + |HexBody(data)|]) == Some(data)
  {
    var a, b, c := ArrayOpening(identifier), HexBody(data), ArrayClosing(identifier, sizeSuffix);
    assert HeaderText(identifier, data, sizeSuffix) == a + b + c;
    assert (a + b + c)[|a|..|a| + |b|] == b;
    HexBodyRoundTrip(data);
  }

  /** What a C compiler sees in a header: the array, and the size symbol
      bound to `sizeof` of an array of bytes, its element count. */
  function HeaderDeclarations(identifier: string, data: seq<byte>, sizeSuffix: string): Rendering.HeaderSymbols
  {
    Rendering.HeaderSymbols(map[identifier := data], map[identifier + sizeSuffix := |data|])
  }

  /** Including two headers: the symbols of both. */
  function Both(a: Rendering.HeaderSymbols, b: Rendering.HeaderSymbols): Rendering.HeaderSymbols
  {
    Rendering.HeaderSymbols(a.arrays + b.arrays, a.sizes + b.sizes)
  }

  const BuildSizeSuffix: string := "_SIZE"
  const CompileSizeSuffix: string := "_LEN"

  /** The four headers `build-shaders.py` writes for the built-in shaders
      declare every symbol the render service compiles against, each size
      equal to its array's length. */
  lemma BuildHeadersServeRenderService(v1: seq<byte>, f1: seq<byte>, v2: seq<byte>, f2: seq<byte>)
    ensures var h := Both(Both(Both(
              HeaderDeclarations(Identifier("basic_triangle.vert"), v1, BuildSizeSuffix),
              HeaderDeclarations(Identifier("basic_triangle.frag"), f1, BuildSizeSuffix)),
              HeaderDeclarations(Identifier("light_source.vert"), v2, BuildSizeSuffix)),
              HeaderDeclarations(Identifier("light_source.frag"), f2, BuildSizeSuffix));
            && Rendering.DeclaresServiceShaders(h)
            && h.sizes[Rendering.BasicTriangleVert + Rendering.SizeSuffix] == |h.arrays[Rendering.BasicTriangleVert]|
  {
    BasicTriangleVertIdentifier();
    BasicTriangleFragIdentifier();
    LightSourceVertIdentifier();
    LightSourceFragIdentifier();
    var n1, n2, n3, n4 := Rendering.BasicTriangleVert, Rendering.BasicTriangleFrag, Rendering.LightSourceVert, Rendering.LightSourceFrag;
    var h1 := HeaderDeclarations(n1, v1, Rendering.SizeSuffix);
    var h2 := HeaderDeclarations(n2, f1, Rendering.SizeSuffix);
    var h3 := HeaderDeclarations(n3, v2, Rendering.SizeSuffix);
    var h4 := HeaderDeclarations(n4, f2, Rendering.SizeSuffix);
    assert n1[15] != n2[15] && n1[0] != n3[0] && n1[0] != n4[0];
    assert n2[0] != n3[0] && n2[0] != n4[0] && n3[13] != n4[13];
    IncludeKeeps(h1, h2, n1);
    IncludeKeeps(Both(h1, h2), h3, n1);
    IncludeKeeps(Both(h1, h2), h3, n2);
    IncludeKeeps(Both(Both(h1, h2), h3), h4, n1);
    IncludeKeeps(Both(Both(h1, h2), h3), h4, n2);
    IncludeKeeps(Both(Both(h1, h2), h3), h4, n3);
  }

  /** A header declaring one name keeps, when included after `a`, every
      other name `a` declares, with its size. */
  lemma IncludeKeeps(a: Rendering.HeaderSymbols, b: Rendering.HeaderSymbols, n: string)
    requires Rendering.Declares(a, n)
    requires exists id, code :: b == HeaderDeclarations(id, code, Rendering.SizeSuffix) && id != n
    ensures Rendering.Declares(Both(a, b), n) && Both(a, b).sizes[n + Rendering.SizeSuffix] == a.sizes[n + Rendering.SizeSuffix]
    ensures Both(a, b).arrays[n] == a.arrays[n]
  {
    var id, code :| b == HeaderDeclarations(id, code, Rendering.SizeSuffix) && id != n;
    assert (n + Rendering.SizeSuffix)[..|n|] == n && (id + Rendering.SizeSuffix)[..|id|] == id;
  }

  /** A header from `compile-shaders.py` declares the array but not the
      `_SIZE` symbol the render service uses, so the service does not
      compile against it. */
  lemma CompileHeaderLacksSize(code: seq<byte>)
    ensures var h := HeaderDeclarations(Identifier("basic_triangle.vert"), code, CompileSizeSuffix);
            Rendering.BasicTriangleVert in h.arrays && !Rendering.Declares(h, Rendering.BasicTriangleVert)
  {
    BasicTriangleVertIdentifier();
    var h := HeaderDeclarations(Identifier("basic_triangle.vert"), code, CompileSizeSuffix);
    assert (Rendering.BasicTriangleVert + CompileSizeSuffix)[|Rendering.BasicTriangleVert| + 1] == 'L';
    assert (Rendering.BasicTriangleVert + Rendering.SizeSuffix)[|Rendering.BasicTriangleVert| + 1] == 'S';
    assert h.sizes.Keys == {Rendering.BasicTriangleVert + CompileSizeSuffix};
  }

  // ---------------------------------------------------------------------
  // Paths and the per-file pipeline
  // ---------------------------------------------------------------------

  /** `os.path.join(dir, name)` for a name from a directory listing. */
  function JoinPath(dir: string, name: string): (r: string)
    ensures EndsWith(r, name)
  {
    var r := if dir == [] || dir[|dir| - 1] == '/' then dir + name else dir + "/" + name;
    assert r[|r| - |name|..] == name;
    r
  }

  lemma JoinPathInjective(dir: string, a: string, b: string)
    requires JoinPath(dir, a) == JoinPath(dir, b)
    ensures a == b
  {
    var p := JoinPath(dir, a);
    var k := |p| - |a|;
    assert a == p[k..];
    assert b == p[k..];
  }

  /** Where a script reads, compiles to and writes. */
  datatype Config = Config(shadersDir: string, spvDir: string, headerDir: string, sizeSuffix: string)

  /** `build-shaders.py <shaders_directory> <output_directory>`. */
  function BuildShadersConfig(shadersDir: string, outputDir: string): Config
  {
    Config(shadersDir, outputDir, outputDir, BuildSizeSuffix)
  }

  /** `compile-shaders.py`: sources and `.spv` files under `shaders`, headers
      under `source/graphics/shaders`. */
  const CompileShadersDir: string := "shaders"
  const CompileShadersConfig: Config := Config(CompileShadersDir, CompileShadersDir, "source/graphics/" + CompileShadersDir, CompileSizeSuffix)

  function InputPath(cfg: Config, filename: string): string
  {
    JoinPath(cfg.shadersDir, filename)
  }

  function SpvPath(cfg: Config, filename: string): (r: string)
    ensures EndsWith(r, ".spv")
  {
    var name := filename + ".spv";
    var r := JoinPath(cfg.spvDir, name);
    assert r[|r| - 4..] == name[|name| - 4..];
    r
  }

  function HeaderPath(cfg: Config, filename: string): (r: string)
    ensures EndsWith(r, ".h")
  {
    var name := filename + ".h";
    var r := JoinPath(cfg.headerDir, name);
    assert r[|r| - 2..] == name[|name| - 2..];
    r
  }

  /** The `.spv` and header paths of different files never meet, and no
      `.spv` path is a header path. */
  lemma OutputPathsDistinct(cfg: Config, f: string, g: string)
    ensures f != g ==> SpvPath(cfg, f) != SpvPath(cfg, g) && HeaderPath(cfg, f) != HeaderPath(cfg, g)
    ensures SpvPath(cfg, f) != HeaderPath(cfg, g)
  {
    if SpvPath(cfg, f) == SpvPath(cfg, g) {
      JoinPathInjective(cfg.spvDir, f + ".spv", g + ".spv");
      assert f == (f + ".spv")[..|f|];
      assert g == (g + ".spv")[..|g|];
    }
    if HeaderPath(cfg, f) == HeaderPath(cfg, g) {
      JoinPathInjective(cfg.headerDir, f + ".h", g + ".h");
      assert f == (f + ".h")[..|f|];
      assert g == (g + ".h")[..|g|];
    }
    var s, h := SpvPath(cfg, f), HeaderPath(cfg, g);
    assert s[|s| - 1] == 'v' && h[|h| - 1] == 'h';
  }

  /** A file's contents: the compiled bytes or the written header text. */
  datatype FileData = Binary(bytes: seq<byte>) | Text(text: string)

  type Files = map<string, FileData>

  /** `glslc`: the bytes it writes for an input path, or none. */
  type Compiler = string -> Option<seq<byte>>

  datatype Step = Step(ok: bool, files: Files)

  /** The header written for a file whose compile produced `code`. */
  function HeaderFile(cfg: Config, filename: string, code: seq<byte>): FileData
  {
    Text(HeaderText(Identifier(filename), code, cfg.sizeSuffix))
  }

  /** One iteration of the scripts' loop: a non-shader file is skipped; for
      a shader, a stale `.spv` is deleted, `glslc` runs, and a missing
      `.spv` stops the script, otherwise its header is written. */
  function ProcessFile(cfg: Config, glslc: Compiler, files: Files, filename: string): Step
  {
    if !IsShaderSource(filename) then Step(true, files)
    else
      var spv := SpvPath(cfg, filename);
      var cleared := files - {spv};
      match glslc(InputPath(cfg, filename))
      case None => Step(false, cleared)
      case Some(code) =>
        Step(true, cleared[spv := Binary(code)][HeaderPath(cfg, filename) := HeaderFile(cfg, filename, code)])
  }

  /** The whole loop over a listing; it stops at the first failed compile. */
  function ProcessAll(cfg: Config, glslc: Compiler, files: Files, listing: seq<string>): Step
    decreases |listing|
  {
    if listing == [] then Step(true, files)
    else
      var s := ProcessFile(cfg, glslc, files, listing[0]);
      if !s.ok then s else ProcessAll(cfg, glslc, s.files, listing[1..])
  }

  /** The loop succeeds exactly when every shader in the listing compiles. */
  lemma {:induction false} ProcessAllSucceedsIffAllCompile(cfg: Config, glslc: Compiler, files: Files, listing: seq<string>)
    ensures ProcessAll(cfg, glslc, files, listing).ok <==>
            forall i | 0 <= i < |listing| && IsShaderSource(listing[i]) :: glslc(InputPath(cfg, listing[i])).Some?
    decreases |listing|
  {
    if listing != [] {
      var s := ProcessFile(cfg, glslc, files, listing[0]);
      if s.ok {
        ProcessAllSucceedsIffAllCompile(cfg, glslc, s.files, listing[1..]);
        assert forall i | 1 <= i < |listing| :: listing[i] == listing[1..][i - 1];
      }
    }
  }

  /** The compile results the files hold for every shader of a set. */
  ghost predicate OutputsWritten(cfg: Config, glslc: Compiler, files: Files, done: set<string>)
  {
    forall f | f in done && IsShaderSource(f) ::
      glslc(InputPath(cfg, f)).Some?
      && SpvPath(cfg, f) in files && files[SpvPath(cfg, f)] == Binary(glslc(InputPath(cfg, f)).value)
      && HeaderPath(cfg, f) in files && files[HeaderPath(cfg, f)] == HeaderFile(cfg, f, glslc(InputPath(cfg, f)).value)
  }

  lemma ProcessFileKeepsOutputs(cfg: Config, glslc: Compiler, files: Files, done: set<string>, g: string)
    requires OutputsWritten(cfg, glslc, files, done)
    requires ProcessFile(cfg, glslc, files, g).ok
    ensures OutputsWritten(cfg, glslc, ProcessFile(cfg, glslc, files, g).files, done + {g})
  {
    var after := ProcessFile(cfg, glslc, files, g).files;
    forall f | f in done + {g} && IsShaderSource(f)
      ensures glslc(InputPath(cfg, f)).Some?
      ensures SpvPath(cfg, f) in after && after[SpvPath(cfg, f)] == Binary(glslc(InputPath(cfg, f)).value)
      ensures HeaderPath(cfg, f) in after && after[HeaderPath(cfg, f)] == HeaderFile(cfg, f, glslc(InputPath(cfg, f)).value)
    {
      if f == g {
        OutputPathsDistinct(cfg, f, f);
      } else {
        OutputPathsDistinct(cfg, f, g);
        OutputPathsDistinct(cfg, g, f);
        if IsShaderSource(g) {
          var spv, hdr := SpvPath(cfg, g), HeaderPath(cfg, g);
          var code := glslc(InputPath(cfg, g)).value;
          assert after == (files - {spv})[spv := Binary(code)][hdr := HeaderFile(cfg, g, code)];
        }
      }
    }
  }

  /** After a successful loop every shader of the listing has its `.spv`
      and a header holding exactly its compiled bytes. */
  lemma {:induction false} ProcessAllWritesOutputs(cfg: Config, glslc: Compiler, files: Files, listing: seq<string>, done: set<string>)
    requires OutputsWritten(cfg, glslc, files, done)
    ensures var r := ProcessAll(cfg, glslc, files, listing);
            r.ok ==> OutputsWritten(cfg, glslc, r.files, done + set f | f in listing)
    decreases |listing|
  {
    if listing != [] {
      var s := ProcessFile(cfg, glslc, files, listing[0]);
      if s.ok {
        ProcessFileKeepsOutputs(cfg, glslc, files, done, listing[0]);
        ProcessAllWritesOutputs(cfg, glslc, s.files, listing[1..], done + {listing[0]});
        assert (done + {listing[0]}) + (set f | f in listing[1..]) == done + set f | f in listing;
      }
    }
  }

  /** A failed loop stopped at a shader that did not compile, and that
      shader's stale `.spv` is gone. */
  lemma {:induction false} ProcessAllFailureRemovesSpv(cfg: Config, glslc: Compiler, files: Files, listing: seq<string>)
    ensures var r := ProcessAll(cfg, glslc, files, listing);
            !r.ok ==> exists i | 0 <= i < |listing| ::
                        IsShaderSource(listing[i]) && glslc(InputPath(cfg, listing[i])).None?
                        && SpvPath(cfg, listing[i]) !in r.files
    decreases |listing|
  {
    if listing != [] {
      var s := ProcessFile(cfg, glslc, files, listing[0]);
      if s.ok {
        ProcessAllFailureRemovesSpv(cfg, glslc, s.files, listing[1..]);
        var r := ProcessAll(cfg, glslc, files, listing);
        if !r.ok {
          var i :| 0 <= i < |listing[1..]| && IsShaderSource(listing[1..][i]) && glslc(InputPath(cfg, listing[1..][i])).None?
                    && SpvPath(cfg, listing[1..][i]) !in r.files;
          assert listing[1..][i] == listing[i + 1];
        }
      } else {
        assert IsShaderSource(listing[0]);
      }
    }
  }

  /** A path is one the loop may write or delete for this listing. */
  ghost predicate Touched(cfg: Config, listing: seq<string>, p: string)
  {
    exists i | 0 <= i < |listing| :: IsShaderSource(listing[i]) && (p == SpvPath(cfg, listing[i]) || p == HeaderPath(cfg, listing[i]))
  }

  /** Every other path keeps its contents, or its absence. */
  lemma {:induction false} ProcessAllTouchesOnlyOutputs(cfg: Config, glslc: Compiler, files: Files, listing: seq<string>, p: string)
    requires !Touched(cfg, listing, p)
    ensures var r := ProcessAll(cfg, glslc, files, listing);
            (p in r.files <==> p in files) && (p in files ==> r.files[p] == files[p])
    decreases |listing|
  {
    if listing != [] {
      var s := ProcessFile(cfg, glslc, files, listing[0]);
      if IsShaderSource(listing[0]) {
        assert p != SpvPath(cfg, listing[0]) && p != HeaderPath(cfg, listing[0]);
      }
      if s.ok {
        ProcessAllTouchesOnlyOutputs(cfg, glslc, s.files, listing[1..], p);
      }
    }
  }

  /** The scripts' loop, as it runs: file by file, stopping at the first
      shader without output. */
  method ProcessListing(cfg: Config, glslc: Compiler, files: Files, listing: seq<string>) returns (ok: bool, out: Files)
    ensures Step(ok, out) == ProcessAll(cfg, glslc, files, listing)
  {
    out := files;
    var i := 0;
    while i < |listing|
      invariant 0 <= i <= |listing|
      invariant ProcessAll(cfg, glslc, files, listing) == ProcessAll(cfg, glslc, out, listing[i..])
    {
      assert listing[i..][1..] == listing[i + 1..];
      var filename := listing[i];
      ghost var before := out;
      if IsShaderSource(filename) {
        var spv := SpvPath(cfg, filename);
        if spv in out {
          out := out - {spv};
        }
        assert out == before - {spv};
        var compiled := glslc(InputPath(cfg, filename));
        if compiled.Some? {
          out := out[spv := Binary(compiled.value)];
        }
        if spv !in out {
          return false, out;
        }
        var code := out[spv].bytes;
        var name := Identifier(filename);
        out := out[HeaderPath(cfg, filename) := Text(HeaderText(name, code, cfg.sizeSuffix))];
        assert Step(true, out) == ProcessFile(cfg, glslc, before, filename);
      }
      i := i + 1;
    }
    ok := true;
  }

  /** `build-shaders.py` with its arguments (after the script name), the
      directories and files it sees, the listing of the shaders directory
      and the compiler. Anything but two arguments, and a shaders path that
      does not exist, exit with status 1 before anything is written. Otherwise
      a missing output directory is created first; a shaders path that is a
      plain file then makes the listing raise, exiting with status 1 and no
      file written. After that the exit status is 0 exactly when the loop
      succeeds. */
  method BuildShaders(args: seq<string>, dirs: set<string>, files: Files, listing: seq<string>, glslc: Compiler)
    returns (status: int, dirsOut: set<string>, filesOut: Files)
    ensures |args| != 2 ==> status == 1 && dirsOut == dirs && filesOut == files
    ensures |args| == 2 && args[0] !in dirs && args[0] !in files ==> status == 1 && dirsOut == dirs && filesOut == files
    ensures |args| == 2 && (args[0] in dirs || args[0] in files) ==>
              dirsOut == dirs + (if args[1] in dirs || args[1] in files then {} else {args[1]})
    ensures |args| == 2 && args[0] !in dirs && args[0] in files ==> status == 1 && filesOut == files
    ensures |args| == 2 && args[0] in dirs ==>
              Step(status == 0, filesOut) == ProcessAll(BuildShadersConfig(args[0], args[1]), glslc, files, listing)
    ensures status == 0 || status == 1
  {
    if |args| != 2 {
      return 1, dirs, files;
    }
    var shadersDir, outputDir := args[0], args[1];
    if shadersDir !in dirs && shadersDir !in files {
      return 1, dirs, files;
    }
    dirsOut := dirs;
    if outputDir !in dirs && outputDir !in files {
      dirsOut := dirsOut + {outputDir};
    }
    if shadersDir !in dirs {
      // `os.listdir` of a plain file raises, which exits with status 1.
      return 1, dirsOut, files;
    }
    var ok;
    ok, filesOut := ProcessListing(BuildShadersConfig(shadersDir, outputDir), glslc, files, listing);
    status := if ok then 0 else 1;
  }

  /** `compile-shaders.py`: status 1 without a `shaders` directory, otherwise
      the loop over that directory with the fixed paths. */
  method CompileShaders(dirs: set<string>, files: Files, listing: seq<string>, glslc: Compiler)
    returns (status: int, filesOut: Files)
    ensures CompileShadersDir !in dirs ==> status == 1 && filesOut == files
    ensures CompileShadersDir in dirs ==> Step(status == 0, filesOut) == ProcessAll(CompileShadersConfig, glslc, files, listing)
    ensures status == 0 || status == 1
  {
    if CompileShadersDir !in dirs && CompileShadersDir !in files {
      return 1, files;
    }
    if CompileShadersDir !in dirs {
      // `os.listdir` of a plain file raises, which exits with status 1.
      return 1, files;
    }
    var ok;
    ok, filesOut := ProcessListing(CompileShadersConfig, glslc, files, listing);
    status := if ok then 0 else 1;
  }
}
