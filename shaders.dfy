/** Finding and loading shader source: the file name of a shader program for the OpenGL
    version in use, and the line-based `#pragma include` substitution applied to its text.
    Reading a file is looking its name up in `files`. */
module Shaders {
  import opened Wrappers
  import opened PyText

  /** `os.path.join(a, b)` on POSIX: an absolute `b` replaces `a`, otherwise the two are
      joined with one `/`. */
  function PathJoin(a: string, b: string): string
  {
    if StartsWith(b, "/") then b
    else if |a| == 0 || a[|a| - 1] == '/' then a + b
    else a + "/" + b
  }

  /** The joined path ends with its last component, which replaces the first when it
      is absolute. */
  lemma PathJoinEnds(a: string, b: string)
    ensures var p := PathJoin(a, b); |p| >= |b| && p[|p| - |b|..] == b
    ensures StartsWith(b, "/") ==> PathJoin(a, b) == b
    ensures !StartsWith(b, "/") && |a| > 0 ==> PathJoin(a, b)[..|a|] == a
  {
  }

  /** `getShaderDir()` */
  function ShaderDir(assetDir: string): string
  {
    PathJoin(PathJoin(assetDir, "assets"), "gl")
  }

  /** The sub-directory for the OpenGL version, when it is one of the two supported. */
  function Subdir(glVersion: string): Option<string>
  {
    if glVersion == "2.1" then Some("gl21") else if glVersion == "1.4" then Some("gl14") else None
  }

  function Suffix(glVersion: string): Option<string>
  {
    if glVersion == "2.1" then Some("glsl") else if glVersion == "1.4" then Some("prog") else None
  }

  /** `_getFileName`: the shader type is checked before the sub-directory and suffix are
      used, so an unsupported OpenGL version shows only for a valid shader type, as the
      unbound local of the Python code. */
  function GetFileName(assetDir: string, glVersion: string, prefix: string, shaderType: string): (r: Result<string>)
    ensures shaderType != "vert" && shaderType != "frag" <==> r == Err(RuntimeError)
    ensures (shaderType == "vert" || shaderType == "frag") && glVersion != "2.1" && glVersion != "1.4" <==>
      r == Err(UnboundLocalError)
  {
    if shaderType != "vert" && shaderType != "frag" then Err(RuntimeError)
    else match (Subdir(glVersion), Suffix(glVersion))
      case (Some(sub), Some(suffix)) =>
        Ok(PathJoin(PathJoin(ShaderDir(assetDir), sub), prefix + "_" + shaderType + "." + suffix))
      case _ => Err(UnboundLocalError)
  }

  /** The file name is `{prefix}_{type}.glsl` under `gl21` for OpenGL 2.1 and
      `{prefix}_{type}.prog` under `gl14` for OpenGL 1.4. */
  lemma FileNameLayout(assetDir: string, glVersion: string, prefix: string, shaderType: string)
    requires shaderType == "vert" || shaderType == "frag"
    requires glVersion == "2.1" || glVersion == "1.4"
    requires !StartsWith(prefix, "/")
    ensures var r := GetFileName(assetDir, glVersion, prefix, shaderType);
      var sub := if glVersion == "2.1" then "gl21" else "gl14";
      var name := prefix + "_" + shaderType + "." + (if glVersion == "2.1" then "glsl" else "prog");
      r == Ok(PathJoin(ShaderDir(assetDir), sub) + "/" + name)
  {
    var sub := if glVersion == "2.1" then "gl21" else "gl14";
    var name := prefix + "_" + shaderType + "." + (if glVersion == "2.1" then "glsl" else "prog");
    var dir := PathJoin(ShaderDir(assetDir), sub);
    assert !StartsWith(name, "/") by {
      if |prefix| > 0 {
        assert name[0] == prefix[0];
        assert !StartsWith(prefix, "/");
      } else {
        assert name[0] == '_';
      }
    }
    assert dir[|dir| - |sub|..] == sub;
    assert dir[|dir| - 1] == sub[|sub| - 1];
  }

  /** The vertex and the fragment program of a prefix are different files. */
  lemma VertexFragmentDiffer(assetDir: string, glVersion: string, prefix: string)
    requires glVersion == "2.1" || glVersion == "1.4"
    ensures GetFileName(assetDir, glVersion, prefix, "vert").Ok?
    ensures GetFileName(assetDir, glVersion, prefix, "vert") != GetFileName(assetDir, glVersion, prefix, "frag")
  {
    var suffix := if glVersion == "2.1" then "glsl" else "prog";
    var nv := prefix + "_" + "vert" + "." + suffix;
    var nf := prefix + "_" + "frag" + "." + suffix;
    var v := GetFileName(assetDir, glVersion, prefix, "vert").value;
    var f := GetFileName(assetDir, glVersion, prefix, "frag").value;
    assert nv[|prefix| + 1] == 'v' && nf[|prefix| + 1] == 'f';
    assert v[|v| - |nv|..] == nv && f[|f| - |nf|..] == nf;
  }

  // ---------------------------------------------------------------- preprocessing

  /** Every line stripped of surrounding whitespace. */
  function StripAll(ls: seq<string>): (r: seq<string>)
    ensures |r| == |ls| && forall i :: 0 <= i < |ls| ==> r[i] == Strip(ls[i])
  {
    if |ls| == 0 then [] else StripAll(ls[..|ls| - 1]) + [Strip(ls[|ls| - 1])]
  }

  /** The lines `preprocess` works on. */
  function Lines(src: string): seq<string>
  {
    StripAll(Split(src, '\n'))
  }

  /** The file a stripped line includes: it starts with `#pragma` and splits into exactly
      three words, the second of which is `include`. */
  function IncludeIn(line: string): Option<string>
  {
    if StartsWith(line, "#pragma") then
      var words := SplitWs(line);
      if |words| == 3 && words[1] == "include" then Some(words[2]) else None
    else None
  }

  /** What each line includes, if anything. The lemmas below are stated over such a
      sequence so that they do not look inside `IncludeIn`. */
  function Includes(lines: seq<string>): (r: seq<Option<string>>)
    ensures |r| == |lines| && forall i :: 0 <= i < |lines| ==> r[i] == IncludeIn(lines[i])
  {
    seq(|lines|, i requires 0 <= i < |lines| => IncludeIn(lines[i]))
  }

  predicate HasIncludes(opts: seq<Option<string>>)
  {
    exists i :: 0 <= i < |opts| && opts[i].Some?
  }

  /** Every file that is included is there to be read. */
  predicate AllFound(opts: seq<Option<string>>, files: map<string, string>, dir: string)
  {
    forall i :: 0 <= i < |opts| && opts[i].Some? ==> PathJoin(dir, opts[i].value) in files
  }

  /** The text of the file at `path`; only asked for once the file is known to exist. */
  function ReadFile(files: map<string, string>, path: string): string
  {
    if path in files then files[path] else ""
  }

  /** Each include line replaced by the text of its file, every other line kept. */
  function Expanded(lines: seq<string>, opts: seq<Option<string>>, files: map<string, string>, dir: string): (r: seq<string>)
    requires |opts| == |lines|
  {
    seq(|lines|, i requires 0 <= i < |lines| =>
      if opts[i].Some? then ReadFile(files, PathJoin(dir, opts[i].value)) else lines[i])
  }

  /** Where `preprocess` looks for included files. */
  function IncludeDir(assetDir: string, glVersion: string): string
  {
    match Subdir(glVersion)
    case Some(sub) => PathJoin(ShaderDir(assetDir), sub)
    case None => ""
  }

  /** What `preprocess(src)` returns or raises. The sub-directory is only needed once there
      is a file to include, so an unsupported OpenGL version shows only then; an include
      whose file is missing raises `IOError`. */
  function Preprocessed(src: string, assetDir: string, glVersion: string, files: map<string, string>): Result<string>
  {
    Spliced(Lines(src), assetDir, glVersion, files)
  }

  /** `preprocess` once the shader text has been split into stripped lines. */
  function Spliced(lines: seq<string>, assetDir: string, glVersion: string, files: map<string, string>): Result<string>
  {
    var opts := Includes(lines);
    if !HasIncludes(opts) then Ok(Join(lines, '\n'))
    else if Subdir(glVersion).None? then Err(UnboundLocalError)
    else
      var dir := IncludeDir(assetDir, glVersion);
      if AllFound(opts, files, dir) then Ok(Join(Expanded(lines, opts, files, dir), '\n')) else Err(IOError)
  }

  /** `pragmas` after scanning the first `n` lines. */
  function PragmaIndices(lines: seq<string>, n: nat): (r: seq<nat>)
    requires n <= |lines|
    ensures forall k :: 0 <= k < |r| ==> r[k] < n
  {
    if n == 0 then []
    else PragmaIndices(lines, n - 1) + (if StartsWith(lines[n - 1], "#pragma") then [n - 1] else [])
  }

  /** `includes` after looking at the pragma lines `idxs`. */
  function IncludesFrom(lines: seq<string>, idxs: seq<nat>): seq<(nat, string)>
    requires forall k :: 0 <= k < |idxs| ==> idxs[k] < |lines|
  {
    if |idxs| == 0 then []
    else
      var i := idxs[|idxs| - 1];
      var words := SplitWs(lines[i]);
      IncludesFrom(lines, idxs[..|idxs| - 1]) + (if |words| == 3 && words[1] == "include" then [(i, words[2])] else [])
  }

  /** The includes among the first `n` lines, in order. */
  function IncludeList(opts: seq<Option<string>>, n: nat): (r: seq<(nat, string)>)
    requires n <= |opts|
    ensures forall k :: 0 <= k < |r| ==> r[k].0 < n
  {
    if n == 0 then []
    else
      IncludeList(opts, n - 1) +
        (if opts[n - 1].Some? then [(n - 1, opts[n - 1].value)] else [])
  }

  /** Each entry of the include list names a line and the file it includes. */
  lemma {:induction false} IncludeListEntry(opts: seq<Option<string>>, n: nat, k: nat)
    requires n <= |opts| && k < |IncludeList(opts, n)|
    ensures opts[IncludeList(opts, n)[k].0] == Some(IncludeList(opts, n)[k].1)
  {
    var prev := IncludeList(opts, n - 1);
    if k < |prev| {
      IncludeListEntry(opts, n - 1, k);
      assert IncludeList(opts, n)[k] == prev[k];
    }
  }

  /** The two loops that collect pragma lines and then include lines find exactly the
      include lines. */
  lemma {:induction false} CollectedIncludes(lines: seq<string>, n: nat)
    requires n <= |lines|
    ensures IncludesFrom(lines, PragmaIndices(lines, n)) == IncludeList(Includes(lines), n)
  {
    if n > 0 {
      CollectedIncludes(lines, n - 1);
      var p := PragmaIndices(lines, n - 1);
      if StartsWith(lines[n - 1], "#pragma") {
        assert (p + [n - 1])[..|p|] == p;
      } else {
        assert p + [] == p;
      }
    }
  }

  /** `lines` after overwriting the entries of `incs` with their files' text. */
  function Applied(lines: seq<string>, incs: seq<(nat, string)>, files: map<string, string>, dir: string): (r: seq<string>)
    requires forall k :: 0 <= k < |incs| ==> incs[k].0 < |lines|
    ensures |r| == |lines|
  {
    if |incs| == 0 then lines
    else
      var last := incs[|incs| - 1];
      Applied(lines, incs[..|incs| - 1], files, dir)[last.0 := ReadFile(files, PathJoin(dir, last.1))]
  }

  /** The line an include list of the first `n` lines leaves at index `i`. */
  function ExpandedUpTo(lines: seq<string>, opts: seq<Option<string>>, n: nat, files: map<string, string>, dir: string, i: nat): string
    requires i < |lines| == |opts|
  {
    if i < n && opts[i].Some? then ReadFile(files, PathJoin(dir, opts[i].value)) else lines[i]
  }

  /** One more include entry overwrites one more line. */
  lemma AppliedSnoc(lines: seq<string>, incs: seq<(nat, string)>, inc: (nat, string), files: map<string, string>, dir: string)
    requires forall k :: 0 <= k < |incs| ==> incs[k].0 < |lines|
    requires inc.0 < |lines|
    ensures Applied(lines, incs + [inc], files, dir) == Applied(lines, incs, files, dir)[inc.0 := ReadFile(files, PathJoin(dir, inc.1))]
  {
    assert (incs + [inc])[..|incs|] == incs;
  }

  /** Overwriting the first `n` include lines matches the reference on those lines. */
  lemma {:induction false} AppliedIncludes(lines: seq<string>, opts: seq<Option<string>>, n: nat, files: map<string, string>, dir: string, i: nat)
    requires n <= |lines| == |opts| && i < |lines|
    ensures Applied(lines, IncludeList(opts, n), files, dir)[i] == ExpandedUpTo(lines, opts, n, files, dir, i)
  {
    if n > 0 {
      AppliedIncludes(lines, opts, n - 1, files, dir, i);
      var prev := IncludeList(opts, n - 1);
      if opts[n - 1].Some? {
        AppliedSnoc(lines, prev, (n - 1, opts[n - 1].value), files, dir);
      } else {
        assert prev + [] == prev;
      }
    }
  }

  lemma ExpandedIsApplied(lines: seq<string>, opts: seq<Option<string>>, files: map<string, string>, dir: string)
    requires |lines| == |opts|
    ensures Applied(lines, IncludeList(opts, |opts|), files, dir) == Expanded(lines, opts, files, dir)
  {
    forall i | 0 <= i < |lines|
      ensures Applied(lines, IncludeList(opts, |opts|), files, dir)[i] == Expanded(lines, opts, files, dir)[i]
    {
      AppliedIncludes(lines, opts, |opts|, files, dir, i);
    }
  }

  /** Every include is on the include list. */
  lemma {:induction false} IncludeListHas(opts: seq<Option<string>>, n: nat, i: nat)
    requires i < n <= |opts| && opts[i].Some?
    ensures exists k :: 0 <= k < |IncludeList(opts, n)| && IncludeList(opts, n)[k] == (i, opts[i].value)
  {
    var prev := IncludeList(opts, n - 1);
    if i == n - 1 {
      assert IncludeList(opts, n)[|prev|] == (i, opts[i].value);
    } else {
      IncludeListHas(opts, n - 1, i);
      var k :| 0 <= k < |prev| && prev[k] == (i, opts[i].value);
      assert IncludeList(opts, n)[k] == prev[k];
    }
  }

  /** An empty include list means no line includes a file. */
  lemma NoIncludeListNone(opts: seq<Option<string>>)
    requires IncludeList(opts, |opts|) == []
    ensures !HasIncludes(opts)
  {
    if HasIncludes(opts) {
      var i :| 0 <= i < |opts| && opts[i].Some?;
      IncludeListHas(opts, |opts|, i);
    }
  }

  /** The first loop of `preprocess`: the indices of the lines that start with `#pragma`. */
  method CollectPragmas(lines: seq<string>) returns (pragmas: seq<nat>)
    ensures pragmas == PragmaIndices(lines, |lines|)
  {
    pragmas := [];
    for linei := 0 to |lines|
      invariant pragmas == PragmaIndices(lines, linei)
    {
      if StartsWith(lines[linei], "#pragma") {
        pragmas := pragmas + [linei];
      }
    }
  }

  /** The second loop of `preprocess`: the pragma lines of three words whose second word
      is `include`, with the included file. */
  method CollectIncludes(lines: seq<string>, pragmas: seq<nat>) returns (includes: seq<(nat, string)>)
    requires forall k :: 0 <= k < |pragmas| ==> pragmas[k] < |lines|
    ensures includes == IncludesFrom(lines, pragmas)
  {
    includes := [];
    for k := 0 to |pragmas|
      invariant includes == IncludesFrom(lines, pragmas[..k])
    {
      var words := SplitWs(lines[pragmas[k]]);
      assert pragmas[..k + 1][..k] == pragmas[..k];
      if |words| != 3 {
        continue;
      }
      if words[1] != "include" {
        continue;
      }
      includes := includes + [(pragmas[k], words[2])];
    }
    assert pragmas[..|pragmas|] == pragmas;
  }

  /** The third loop of `preprocess`: each include line overwritten by its file's text;
      the first include whose file is missing raises `IOError`. */
  method ReadIncludes(lines: seq<string>, includes: seq<(nat, string)>, files: map<string, string>, dir: string)
    returns (r: Result<seq<string>>)
    requires forall k :: 0 <= k < |includes| ==> includes[k].0 < |lines|
    ensures r.Err? <==> exists k :: 0 <= k < |includes| && PathJoin(dir, includes[k].1) !in files
    ensures r.Ok? ==> r == Ok(Applied(lines, includes, files, dir))
    ensures r.Err? ==> r.error == IOError
  {
    var out := lines;
    for k := 0 to |includes|
      invariant forall m :: 0 <= m < k ==> PathJoin(dir, includes[m].1) in files
      invariant out == Applied(lines, includes[..k], files, dir)
    {
      var (linei, fname) := includes[k];
      var full := PathJoin(dir, fname);
      if full !in files {
        return Err(IOError);
      }
      assert includes[..k + 1][..k] == includes[..k];
      out := out[linei := ReadFile(files, full)];
    }
    assert includes[..|includes|] == includes;
    r := Ok(out);
  }

  /** `preprocess` */
  method Preprocess(src: string, assetDir: string, glVersion: string, files: map<string, string>) returns (r: Result<string>)
    ensures r == Preprocessed(src, assetDir, glVersion, files)
  {
    var lines := Lines(src);
    r := Splice(lines, assetDir, glVersion, files);
  }

  /** The three loops of `preprocess` on the stripped lines. */
  method Splice(lines: seq<string>, assetDir: string, glVersion: string, files: map<string, string>) returns (r: Result<string>)
    ensures r == Spliced(lines, assetDir, glVersion, files)
  {
    ghost var opts := Includes(lines);
    var pragmas := CollectPragmas(lines);
    var includes := CollectIncludes(lines, pragmas);
    CollectedIncludes(lines, |lines|);
    if |includes| == 0 {
      NoIncludeListNone(opts);
      return Ok(Join(lines, '\n'));
    }
    IncludeListEntry(opts, |opts|, 0);
    var sub := Subdir(glVersion);
    if sub.None? {
      return Err(UnboundLocalError);
    }
    var dir := PathJoin(ShaderDir(assetDir), sub.value);
    assert dir == IncludeDir(assetDir, glVersion);
    var out := ReadIncludes(lines, includes, files, dir);
    if out.Err? {
      var k :| 0 <= k < |includes| && PathJoin(dir, includes[k].1) !in files;
      IncludeListEntry(opts, |opts|, k);
      return Err(IOError);
    }
    forall i | 0 <= i < |opts| && opts[i].Some? ensures PathJoin(dir, opts[i].value) in files {
      IncludeListHas(opts, |opts|, i);
    }
    ExpandedIsApplied(lines, opts, files, dir);
    r := Ok(Join(out.value, '\n'));
  }

  /** A source whose lines carry no surrounding whitespace and include nothing comes back
      from `preprocess` unchanged. */
  lemma NoIncludesIdentity(src: string, assetDir: string, glVersion: string, files: map<string, string>)
    requires forall i :: 0 <= i < |Split(src, '\n')| ==> var l := Split(src, '\n')[i];
      |l| > 0 ==> !IsSpace(l[0]) && !IsSpace(l[|l| - 1])
    requires forall i :: 0 <= i < |Split(src, '\n')| ==> IncludeIn(Split(src, '\n')[i]).None?
    ensures Preprocessed(src, assetDir, glVersion, files) == Ok(src)
  {
    var parts := Split(src, '\n');
    forall i | 0 <= i < |parts| ensures Strip(parts[i]) == parts[i] {
      StripStripped(parts[i]);
    }
    var lines := Lines(src);
    assert lines == parts;
    var opts := Includes(lines);
    assert !HasIncludes(opts) by {
      forall i | 0 <= i < |opts| ensures opts[i].None? {
        assert opts[i] == IncludeIn(parts[i]);
      }
    }
    JoinSplit(src, '\n');
    assert Spliced(lines, assetDir, glVersion, files) == Ok(Join(lines, '\n'));
  }

  /** With no includes, the reference expansion changes nothing. */
  lemma ExpandedNoIncludes(lines: seq<string>, opts: seq<Option<string>>, files: map<string, string>, dir: string)
    requires |opts| == |lines| && !HasIncludes(opts)
    ensures Expanded(lines, opts, files, dir) == lines
  {
  }

  /** Whatever `preprocess` returns is the reference expansion joined with newlines. */
  lemma PreprocessedIsJoin(src: string, assetDir: string, glVersion: string, files: map<string, string>)
    requires Preprocessed(src, assetDir, glVersion, files).Ok?
    ensures var lines := Lines(src);
      Preprocessed(src, assetDir, glVersion, files).value ==
        Join(Expanded(lines, Includes(lines), files, IncludeDir(assetDir, glVersion)), '\n')
  {
    var lines := Lines(src);
    var opts := Includes(lines);
    if !HasIncludes(opts) {
      ExpandedNoIncludes(lines, opts, files, IncludeDir(assetDir, glVersion));
    }
  }

  /** With single-line included files no piece of the expansion holds a newline. */
  lemma ExpandedPiecesFree(src: string, files: map<string, string>, dir: string)
    requires forall p :: p in files ==> !Contains(files[p], '\n')
    ensures var lines := Lines(src); var parts := Expanded(lines, Includes(lines), files, dir);
      forall i :: 0 <= i < |parts| ==> !Contains(parts[i], '\n')
  {
    var lines := Lines(src);
    var opts := Includes(lines);
    var parts := Expanded(lines, opts, files, dir);
    SplitPiecesFree(src, '\n');
    forall i | 0 <= i < |parts| ensures !Contains(parts[i], '\n') {
      if opts[i].None? {
        StripFree(Split(src, '\n')[i], '\n');
      }
    }
  }

  /** `preprocess` keeps the line structure when the included files are single lines:
      splitting the result at newlines gives one piece per input line, the stripped
      line itself or, for an include line, the included text verbatim. */
  lemma PreprocessedLines(src: string, assetDir: string, glVersion: string, files: map<string, string>)
    requires Preprocessed(src, assetDir, glVersion, files).Ok?
    requires forall p :: p in files ==> !Contains(files[p], '\n')
    ensures var lines := Lines(src);
      var pieces := Split(Preprocessed(src, assetDir, glVersion, files).value, '\n');
      |pieces| == |Split(src, '\n')| &&
      forall i :: 0 <= i < |lines| ==>
        pieces[i] == (match IncludeIn(lines[i])
          case None => lines[i]
          case Some(f) => ReadFile(files, PathJoin(IncludeDir(assetDir, glVersion), f)))
  {
    var lines := Lines(src);
    var dir := IncludeDir(assetDir, glVersion);
    PreprocessedIsJoin(src, assetDir, glVersion, files);
    ExpandedPiecesFree(src, files, dir);
    SplitJoin(Expanded(lines, Includes(lines), files, dir), '\n');
  }

  /** `_getShader`: read the program's file and preprocess it. */
  function Shader(assetDir: string, glVersion: string, prefix: string, shaderType: string, files: map<string, string>): Result<string>
  {
    match GetFileName(assetDir, glVersion, prefix, shaderType)
    case Err(e) => Err(e)
    case Ok(path) => if path in files then Preprocessed(files[path], assetDir, glVersion, files) else Err(IOError)
  }

  method GetShader(assetDir: string, glVersion: string, prefix: string, shaderType: string, files: map<string, string>)
    returns (r: Result<string>)
    ensures r == Shader(assetDir, glVersion, prefix, shaderType, files)
    ensures r == Err(RuntimeError) <==> shaderType != "vert" && shaderType != "frag"
  {
    var fname := GetFileName(assetDir, glVersion, prefix, shaderType);
    if fname.Err? {
      return Err(fname.error);
    }
    if fname.value !in files {
      return Err(IOError);
    }
    r := Preprocess(files[fname.value], assetDir, glVersion, files);
    PreprocessedErrors(files[fname.value], assetDir, glVersion, files);
  }

  /** `preprocess` raises only for an unsupported OpenGL version or a missing file. */
  lemma PreprocessedErrors(src: string, assetDir: string, glVersion: string, files: map<string, string>)
    ensures var r := Preprocessed(src, assetDir, glVersion, files);
      r.Err? ==> r == Err(UnboundLocalError) || r == Err(IOError)
    ensures Preprocessed(src, assetDir, glVersion, files) == Err(UnboundLocalError) ==>
      glVersion != "2.1" && glVersion != "1.4"
  {
  }

  /** `getVertexShader`: never raises for the shader type. */
  method GetVertexShader(assetDir: string, glVersion: string, prefix: string, files: map<string, string>)
    returns (r: Result<string>)
    ensures r == Shader(assetDir, glVersion, prefix, "vert", files)
    ensures r != Err(RuntimeError)
  {
    r := GetShader(assetDir, glVersion, prefix, "vert", files);
  }

  /** `getFragmentShader`: never raises for the shader type. */
  method GetFragmentShader(assetDir: string, glVersion: string, prefix: string, files: map<string, string>)
    returns (r: Result<string>)
    ensures r == Shader(assetDir, glVersion, prefix, "frag", files)
    ensures r != Err(RuntimeError)
  {
    r := GetShader(assetDir, glVersion, prefix, "frag", files);
  }
}
